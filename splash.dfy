/** The splash screen: a three-image carousel with one indicator dot per
    image, a skip button, and a countdown label. Two clock timers drive it:
    a one-second interval that runs the countdown, and a one-shot that moves
    to the main screen after three seconds. Here each timer is a flag, and
    each firing of a timer is a method call. */
module Splash {
  import opened Text

  const SplashImageCount: nat := 3
  const StartCountdown: nat := 3
  const FilledDot: string := "●"
  const HollowDot: string := "○"
  const Enter: string := "进入"

  /** What `update_indicator` receives as `index`: a carousel position, or
      a slide widget, which compares unequal to every position. */
  datatype SlideRef = Position(index: int) | Widget(slide: nat)

  /** Python's `i == index` for dot `i`. */
  predicate Selects(sel: SlideRef, i: nat) { sel.Position? && sel.index == i }

  /** The dot texts `update_indicator(sel)` leaves on `n` dots. */
  function IndicatorTexts(n: nat, sel: SlideRef): seq<string>
  {
    seq(n, i requires 0 <= i < n => if Selects(sel, i) then FilledDot else HollowDot)
  }

  function CountFilled(s: seq<string>): nat
  {
    if s == [] then 0 else CountFilled(s[..|s| - 1]) + (if s[|s| - 1] == FilledDot then 1 else 0)
  }

  /** Exactly one dot is filled when the index is a position in range, and
      none otherwise. */
  lemma {:induction false} IndicatorFillsOne(n: nat, sel: SlideRef)
    ensures CountFilled(IndicatorTexts(n, sel)) == if sel.Position? && 0 <= sel.index < n then 1 else 0
  {
    if n > 0 {
      assert IndicatorTexts(n, sel)[..n - 1] == IndicatorTexts(n - 1, sel);
      IndicatorFillsOne(n - 1, sel);
    }
  }

  /** The labels the countdown shows from `c` on: `c 秒` down to `1 秒`,
      then `进入`. */
  function CountdownLabels(c: nat): seq<string>
  {
    if c == 0 then [Enter] else [SecondsLabel(c)] + CountdownLabels(c - 1)
  }

  lemma {:induction false} CountdownLabelsShape(c: nat)
    ensures |CountdownLabels(c)| == c + 1
    ensures CountdownLabels(c)[c] == Enter
    ensures forall i :: 0 <= i < c ==> CountdownLabels(c)[i] == SecondsLabel(c - i) != Enter
  {
    if c > 0 {
      CountdownLabelsShape(c - 1);
      forall i | 0 <= i < c
        ensures CountdownLabels(c)[i] == SecondsLabel(c - i) != Enter
      {
        SecondsLabelIsNotEnter(c - i);
      }
    }
  }

  /** No label repeats during a countdown. */
  lemma CountdownLabelsDistinct(c: nat)
    ensures forall i, j :: 0 <= i < j < |CountdownLabels(c)| ==> CountdownLabels(c)[i] != CountdownLabels(c)[j]
  {
    CountdownLabelsShape(c);
    forall i, j | 0 <= i < j < |CountdownLabels(c)|
      ensures CountdownLabels(c)[i] != CountdownLabels(c)[j]
    {
      if j < c && SecondsLabel(c - i) == SecondsLabel(c - j) {
        SecondsLabelInjective(c - i, c - j);
      }
    }
  }

  lemma SecondsLabelIsNotEnter(n: nat)
    ensures SecondsLabel(n) != Enter
  {
    assert IsDigit(SecondsLabel(n)[0]) && !IsDigit(Enter[0]);
  }

  class StartScreen {
    var countdown: int
    var countdownLabel: string
    /** The indicator dots' texts, one per carousel image. */
    const indicators: array<string>
    /** The one-second interval that runs `UpdateCountdown`. */
    var countdownScheduled: bool
    /** The three-second one-shot that runs `GoMain`. */
    var goMainScheduled: bool
    /** The screen manager's current screen. */
    var current: string

    ghost predicate Valid()
      reads this
    {
      countdown >= 0 && indicators.Length == SplashImageCount
    }

    constructor ()
      ensures Valid() && fresh(indicators)
      ensures countdown == StartCountdown - 1 && countdownLabel == SecondsLabel(StartCountdown)
      ensures indicators[..] == IndicatorTexts(SplashImageCount, Position(0))
      ensures countdownScheduled && goMainScheduled && current == "start"
    {
      indicators := new string[SplashImageCount](_ => HollowDot);
      countdownLabel := "3 秒";
      countdown := StartCountdown;
      current := "start";
      new;
      UpdateIndicator(Position(0));
      var keep := UpdateCountdown();
      countdownScheduled := true;
      goMainScheduled := true;
    }

    /** Returns whether the clock keeps the timer: the source returns
        `None` (keep) while counting and `False` (stop) at zero. */
    method UpdateCountdown() returns (keep: bool)
      requires Valid()
      modifies this`countdown, this`countdownLabel
      ensures Valid()
      ensures old(countdown) > 0 ==>
        countdownLabel == SecondsLabel(old(countdown)) && countdown == old(countdown) - 1 && keep
      ensures old(countdown) == 0 ==> countdownLabel == Enter && countdown == 0 && !keep
    {
      if countdown > 0 {
        countdownLabel := SecondsLabel(countdown);
        countdown := countdown - 1;
        keep := true;
      } else {
        countdownLabel := Enter;
        keep := false;
      }
    }

    /** One firing of the one-second interval; a callback that returns
        `False` is unscheduled. */
    method CountdownTick()
      requires Valid()
      modifies this`countdown, this`countdownLabel, this`countdownScheduled
      ensures Valid()
      ensures !old(countdownScheduled) ==> unchanged(this)
      ensures old(countdownScheduled) && old(countdown) > 0 ==>
        countdownLabel == SecondsLabel(old(countdown)) && countdown == old(countdown) - 1 && countdownScheduled
      ensures old(countdownScheduled) && old(countdown) == 0 ==>
        countdownLabel == Enter && countdown == 0 && !countdownScheduled
    {
      if countdownScheduled {
        var keep := UpdateCountdown();
        countdownScheduled := keep;
      }
    }

    /** The firing of the three-second one-shot. */
    method GoMainTick()
      modifies this`goMainScheduled, this`current
      ensures !goMainScheduled
      ensures old(goMainScheduled) ==> current == "main"
      ensures !old(goMainScheduled) ==> unchanged(this)
    {
      if goMainScheduled {
        goMainScheduled := false;
        GoMain();
      }
    }

    method UpdateIndicator(sel: SlideRef)
      modifies indicators
      ensures indicators[..] == IndicatorTexts(indicators.Length, sel)
    {
      for i := 0 to indicators.Length
        invariant forall k :: 0 <= k < i ==> indicators[k] == (if Selects(sel, k) then FilledDot else HollowDot)
      {
        indicators[i] := if Selects(sel, i) then FilledDot else HollowDot;
      }
    }

    /** As bound in the source, to the carousel's `current_slide`: the
        handler receives the slide widget itself. */
    method OnSlideChanged(slide: nat)
      requires Valid()
      modifies indicators
      ensures indicators[..] == IndicatorTexts(SplashImageCount, Widget(slide))
      ensures CountFilled(indicators[..]) == 0
    {
      UpdateIndicator(Widget(slide));
      IndicatorFillsOne(SplashImageCount, Widget(slide));
    }

    /** The evident intent: the handler receives the carousel's index. */
    method OnSlideIndexChanged(index: int)
      requires Valid() && 0 <= index < SplashImageCount
      modifies indicators
      ensures indicators[..] == IndicatorTexts(SplashImageCount, Position(index))
      ensures CountFilled(indicators[..]) == 1 && indicators[index] == FilledDot
    {
      UpdateIndicator(Position(index));
      IndicatorFillsOne(SplashImageCount, Position(index));
    }

    method SkipToMain()
      modifies this`countdownScheduled, this`goMainScheduled, this`current
      ensures !countdownScheduled && !goMainScheduled && current == "main"
    {
      countdownScheduled := false;
      goMainScheduled := false;
      current := "main";
    }

    method GoMain()
      modifies this`current
      ensures current == "main"
    {
      current := "main";
    }
  }

  /** The splash screen as the clock drives it: the labels it shows when
      built and after each of the next three countdown firings, and whether
      the interval is still scheduled after them. */
  method CountdownFromStart() returns (labels: seq<string>, stillScheduled: bool)
    ensures labels == CountdownLabels(StartCountdown)
    ensures labels == ["3 秒", "2 秒", "1 秒", "进入"]
    ensures !stillScheduled
  {
    var s := new StartScreen();
    labels := [s.countdownLabel];
    s.CountdownTick();
    labels := labels + [s.countdownLabel];
    s.CountdownTick();
    labels := labels + [s.countdownLabel];
    s.CountdownTick();
    labels := labels + [s.countdownLabel];
    stillScheduled := s.countdownScheduled;
    assert Decimal(3) == "3" && Decimal(2) == "2" && Decimal(1) == "1";
    assert SecondsLabel(3) == "3 秒" && SecondsLabel(2) == "2 秒" && SecondsLabel(1) == "1 秒";
  }

  /** After the skip button, neither timer changes anything when it fires. */
  method SkipThenTimersFire() returns (screen: string, countdownText: string)
    ensures screen == "main" && countdownText == SecondsLabel(StartCountdown)
  {
    var s := new StartScreen();
    s.SkipToMain();
    s.CountdownTick();
    s.GoMainTick();
    screen, countdownText := s.current, s.countdownLabel;
  }
}
