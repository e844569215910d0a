/** Text shared by both screens: Python's `str(n)` for the numbers shown in
    the labels, the page label and countdown label formats, and `str.join`. */
module Text {
  import opened Wrappers

  predicate IsDigit(c: char) { '0' <= c <= '9' }

  predicate AllDigits(s: string) { forall i :: 0 <= i < |s| ==> IsDigit(s[i]) }

  function DigitValue(c: char): (d: nat)
    requires IsDigit(c)
    ensures d < 10
  {
    (c as int) - ('0' as int)
  }

  function DigitChar(d: nat): (c: char)
    requires d < 10
    ensures IsDigit(c) && DigitValue(c) == d
  {
    (('0' as int) + d) as char
  }

  /** Python's `str(n)` for a non-negative integer: its decimal digits,
      with no leading zero. */
  function Decimal(n: nat): (s: string)
    ensures 1 <= |s| && AllDigits(s)
    ensures n > 0 ==> s[0] != '0'
  {
    if n < 10 then [DigitChar(n)] else Decimal(n / 10) + [DigitChar(n % 10)]
  }

  /** The number a string of decimal digits denotes (Python's `int(s)`). */
  function DecimalValue(s: string): nat
    requires AllDigits(s)
  {
    if s == [] then 0 else DecimalValue(s[..|s| - 1]) * 10 + DigitValue(s[|s| - 1])
  }

  lemma {:induction false} DecimalRoundTrip(n: nat)
    ensures DecimalValue(Decimal(n)) == n
  {
    var s := Decimal(n);
    if n < 10 {
      assert s[..|s| - 1] == [];
    } else {
      assert s[..|s| - 1] == Decimal(n / 10);
      DecimalRoundTrip(n / 10);
    }
  }

  lemma DecimalInjective(m: nat, n: nat)
    requires Decimal(m) == Decimal(n)
    ensures m == n
  {
    DecimalRoundTrip(m);
    DecimalRoundTrip(n);
  }

  /** The length of the longest prefix of `s` made of decimal digits. */
  function DigitRun(s: string): (k: nat)
    ensures k <= |s| && AllDigits(s[..k])
    ensures k < |s| ==> !IsDigit(s[k])
  {
    if s == [] || !IsDigit(s[0]) then 0
    else
      var k' := DigitRun(s[1..]);
      assert s[..1 + k'] == [s[0]] + s[1..][..k'];
      1 + k'
  }

  lemma {:induction false} DigitRunOfDigits(d: string, rest: string)
    requires AllDigits(d)
    requires rest == [] || !IsDigit(rest[0])
    ensures DigitRun(d + rest) == |d|
  {
    if d != [] {
      assert (d + rest)[1..] == d[1..] + rest;
      DigitRunOfDigits(d[1..], rest);
    }
  }

  /** `f'第{shown}页/共{total}页'`, the label between the page buttons. */
  function PageLabel(shown: nat, total: nat): string
  {
    "第" + Decimal(shown) + "页/共" + Decimal(total) + "页"
  }

  /** Reads back the two numbers of a page label; `None` for any other text. */
  function ParsePageLabel(s: string): Option<(nat, nat)>
  {
    if |s| == 0 || s[0] != '第' then None
    else
      var a := s[1..];
      var i := DigitRun(a);
      var b := a[i..];
      if i == 0 || |b| < 3 || b[..3] != "页/共" then None
      else
        var c := b[3..];
        var j := DigitRun(c);
        if j == 0 || c[j..] != "页" then None
        else Some((DecimalValue(a[..i]), DecimalValue(c[..j])))
  }

  lemma PageLabelRoundTrip(shown: nat, total: nat)
    ensures ParsePageLabel(PageLabel(shown, total)) == Some((shown, total))
  {
    var d1, d2 := Decimal(shown), Decimal(total);
    var s := PageLabel(shown, total);
    var a := s[1..];
    assert a == d1 + ("页/共" + d2 + "页");
    DigitRunOfDigits(d1, "页/共" + d2 + "页");
    assert a[..|d1|] == d1;
    var b := a[|d1|..];
    assert b == "页/共" + (d2 + "页");
    var c := b[3..];
    assert c == d2 + "页";
    DigitRunOfDigits(d2, "页");
    assert c[..|d2|] == d2;
    DecimalRoundTrip(shown);
    DecimalRoundTrip(total);
  }

  /** The page label names the page: two labels for the same page count are
      equal only when they show the same page number. */
  lemma PageLabelDeterminesPage(p: nat, q: nat, total: nat)
    requires PageLabel(p, total) == PageLabel(q, total)
    ensures p == q
  {
    PageLabelRoundTrip(p, total);
    PageLabelRoundTrip(q, total);
  }

  /** `f'{n} 秒'`, the countdown label of the splash screen. */
  function SecondsLabel(n: nat): string
  {
    Decimal(n) + " 秒"
  }

  lemma SecondsLabelInjective(m: nat, n: nat)
    requires SecondsLabel(m) == SecondsLabel(n)
    ensures m == n
  {
    var dm, dn := Decimal(m), Decimal(n);
    DigitRunOfDigits(dm, " 秒");
    DigitRunOfDigits(dn, " 秒");
    assert SecondsLabel(m)[..|dm|] == dm;
    assert SecondsLabel(n)[..|dn|] == dn;
    DecimalInjective(m, n);
  }

  /** Python's `sep.join(items)`. */
  function Join(sep: string, items: seq<string>): string
  {
    if |items| == 0 then ""
    else if |items| == 1 then items[0]
    else items[0] + sep + Join(sep, items[1..])
  }

  function TotalLength(items: seq<string>): nat
  {
    if items == [] then 0 else |items[0]| + TotalLength(items[1..])
  }

  /** Where `items[k]` begins in `Join(sep, items)`. */
  function PieceStart(sep: string, items: seq<string>, k: nat): nat
    requires k <= |items|
  {
    if k == 0 then 0 else |items[0]| + |sep| + PieceStart(sep, items[1..], k - 1)
  }

  lemma {:induction false} JoinLength(sep: string, items: seq<string>)
    ensures |Join(sep, items)| == TotalLength(items) + (if items == [] then 0 else (|items| - 1) * |sep|)
  {
    if |items| == 1 {
      assert items[1..] == [];
    } else if |items| > 1 {
      JoinLength(sep, items[1..]);
    }
  }

  lemma SliceOfAppend(x: string, y: string, a: nat, b: nat)
    requires |x| <= a <= b <= |x| + |y|
    ensures (x + y)[a..b] == y[a - |x|..b - |x|]
  {
  }

  lemma {:induction false} PieceStartBound(sep: string, items: seq<string>, k: nat)
    requires k < |items|
    ensures PieceStart(sep, items, k) + |items[k]| <= |Join(sep, items)|
    ensures k + 1 < |items| ==> PieceStart(sep, items, k + 1) == PieceStart(sep, items, k) + |items[k]| + |sep|
    ensures k + 1 < |items| ==> PieceStart(sep, items, k + 1) <= |Join(sep, items)|
  {
    if |items| > 1 && k > 0 {
      PieceStartBound(sep, items[1..], k - 1);
    }
  }

  /** `items[k]` sits in `Join(sep, items)` at `PieceStart(sep, items, k)`. */
  lemma {:induction false} JoinPiece(sep: string, items: seq<string>, k: nat)
    requires k < |items|
    ensures PieceStart(sep, items, k) + |items[k]| <= |Join(sep, items)|
    ensures Join(sep, items)[PieceStart(sep, items, k)..PieceStart(sep, items, k) + |items[k]|] == items[k]
  {
    PieceStartBound(sep, items, k);
    if |items| > 1 {
      var head := items[0] + sep;
      var tail := Join(sep, items[1..]);
      if k > 0 {
        JoinPiece(sep, items[1..], k - 1);
        var p := PieceStart(sep, items[1..], k - 1);
        SliceOfAppend(head, tail, |head| + p, |head| + p + |items[k]|);
      }
    }
  }

  /** Between `items[k]` and `items[k + 1]`, `Join(sep, items)` holds exactly `sep`. */
  lemma {:induction false} JoinSeparator(sep: string, items: seq<string>, k: nat)
    requires k + 1 < |items|
    ensures PieceStart(sep, items, k + 1) == PieceStart(sep, items, k) + |items[k]| + |sep|
    ensures PieceStart(sep, items, k + 1) <= |Join(sep, items)|
    ensures Join(sep, items)[PieceStart(sep, items, k) + |items[k]|..PieceStart(sep, items, k + 1)] == sep
  {
    PieceStartBound(sep, items, k);
    var head := items[0] + sep;
    var tail := Join(sep, items[1..]);
    if k > 0 {
      JoinSeparator(sep, items[1..], k - 1);
      var p := PieceStart(sep, items[1..], k - 1);
      var q := PieceStart(sep, items[1..], k);
      SliceOfAppend(head, tail, |head| + p + |items[k]|, |head| + q);
    } else {
      assert (head + tail)[|items[0]|..|head|] == sep;
    }
  }

  /** `JoinPiece` and `JoinSeparator` for every position at once. */
  lemma JoinLayout(sep: string, items: seq<string>)
    ensures forall k :: 0 <= k < |items| ==>
      && PieceStart(sep, items, k) + |items[k]| <= |Join(sep, items)|
      && Join(sep, items)[PieceStart(sep, items, k)..PieceStart(sep, items, k) + |items[k]|] == items[k]
    ensures forall k :: 0 <= k < |items| - 1 ==>
      && PieceStart(sep, items, k) + |items[k]| + |sep| <= |Join(sep, items)|
      && Join(sep, items)[PieceStart(sep, items, k) + |items[k]|..PieceStart(sep, items, k) + |items[k]| + |sep|] == sep
  {
    forall k | 0 <= k < |items|
      ensures PieceStart(sep, items, k) + |items[k]| <= |Join(sep, items)|
      ensures Join(sep, items)[PieceStart(sep, items, k)..PieceStart(sep, items, k) + |items[k]|] == items[k]
    {
      JoinPiece(sep, items, k);
    }
    forall k | 0 <= k < |items| - 1
      ensures PieceStart(sep, items, k) + |items[k]| + |sep| <= |Join(sep, items)|
      ensures Join(sep, items)[PieceStart(sep, items, k) + |items[k]|..PieceStart(sep, items, k) + |items[k]| + |sep|] == sep
    {
      JoinSeparator(sep, items, k);
    }
  }
}
