# Horse-year festival greetings app: a verified model of its screen logic

The app (`main.py`, v1.0.9) shows pre-written greetings for the Spring Festival (春节祝福) and the Lantern Festival (元宵节祝福). It has two screens:

- A **splash screen** (`StartScreen`): a three-image carousel with one indicator dot per image, a skip button, and a countdown label, "3 秒", "2 秒", "1 秒", then "进入". A one-second clock interval runs the countdown. A separate three-second one-shot timer switches to the main screen.
- A **main screen** (`MainScreen`): two festival buttons, a category spinner, and previous/next page buttons with a page label `第{page+1}页/共{total}页`. The page count is fixed at two. Each page lists at most five greetings, and each row has a copy button. A category of seven greetings shows five on page 1 and two on page 2. A category of five or fewer leaves page 2 empty. "Send" copies the whole page, joined by `"\n---\n"`, to the clipboard. "Share" hands the page to the platform share chooser, or copies it when that service is unavailable.

The model is in Dafny:

- `wrappers.dfy`: `Option`.
- `text.dfy`, module `Text`: Python's `str(n)` for a non-negative number together with its inverse, the page label with a parser that reads it back, the countdown label, and `str.join` with a complete description of where each piece and each separator lies.
- `pages.dfy`, module `Pages`: Python slicing with non-negative bounds, and the page arithmetic `start = page*5`, `end = min(start+5, len)`.
- `main_screen.dfy`, module `Greetings`: the `MainScreen` class. Its object invariant `Valid()` covers all of these:
  - the page stays in `[0, totalPages-1]`;
  - the prev flag is set exactly on the first page, and the next flag exactly on the last;
  - the label is the rendered page label;
  - the shown rows are the current page of the current category;
  - the category list is the current festival's key list, and the current category is one of its keys.
- `splash.dfy`, module `Splash`: the `StartScreen` class.
  - The indicator dots are an `array<string>`, updated in a loop.
  - Each clock timer is a "scheduled" flag, and each firing of a timer is a method call.
  - The screen manager's current screen is a plain field.

The greeting tables are elided in the source. They are therefore abstract `Table` values: the category names in dictionary insertion order, plus a map from category to greetings. The system clipboard is the field `MainScreen.clipboard`.

Some behaviours of `main.py` that the model keeps:

- A category missing from the current table raises `KeyError` (main.py:315). Nothing shows a placeholder instead. The model therefore makes key membership a precondition: on `ShowCurrentPage` directly, and through `Valid()` on the other methods.
- A failed share (main.py:417-420) only shows a toast and prints the error. It does not fall back to the clipboard. `ShareBlessings(true)` leaves the clipboard as it was.
- The splash screen has no touch-to-pause or idle-resume logic.
- The move to the main screen comes from its own three-second one-shot timer (main.py:154). It does not come from the countdown reaching zero.

## Model

| member | source | states |
|---|---|---|
| Text.Decimal | main.py:382 | Python's `str(n)`: at least one character, all decimal digits, and no leading zero unless `n` is 0 |
| Text.PageLabel | main.py:382 | defined as the f-string `第{shown}页/共{total}页` |
| Text.SecondsLabel | main.py:158 | defined as the f-string `{n} 秒` |
| Text.Join | main.py:390 | defined as Python's `sep.join(items)`: empty for no items, the item itself for one, items separated by `sep` otherwise |
| Text.JoinLayout | main.py:390 | `JoinPiece` and `JoinSeparator` for every position at once |
| Text.DecimalRoundTrip | main.py:382 | reading back the decimal text of a page number (or count) gives that number, so the label's rendering loses nothing |
| Text.DecimalInjective | main.py:158 | two numbers with the same decimal text are equal |
| Text.PageLabelRoundTrip | main.py:382 | the label `第{n}页/共{t}页` parses back to exactly `(n, t)` |
| Text.PageLabelDeterminesPage | main.py:382 | with the total fixed, two equal page labels show the same page |
| Text.SecondsLabelInjective | main.py:158 | the countdown label `{n} 秒` determines `n` |
| Text.JoinLength | main.py:390 | the joined text has the items' total length plus one separator between each two items |
| Text.JoinPiece | main.py:390 | item `k` sits, unchanged, at its computed offset in the joined text |
| Text.JoinSeparator | main.py:390 | between item `k` and item `k+1` the joined text holds exactly the separator |
| Pages.PySlice | main.py:318 | Python slice `s[a:b]` with non-negative bounds: its length is `min(b,len)-a` when `a < b` and `a < len`, otherwise 0, and element `i` is `s[a+i]` |
| Pages.PageItems | main.py:316-318 | a page has at most 5 items, has `min(5, len-5p)` items when `5p < len` and none otherwise, and item `i` is greeting `5p+i` |
| Pages.PageItemsIsRun | main.py:316-318 | a page is the contiguous run `s[5p..min(5p+5,len)]`, and is empty when `5p >= len` |
| Pages.FirstPagesArePrefix | main.py:316-318 | pages `0..n-1` shown one after the other are exactly the first `min(5n, len)` greetings, in order |
| Greetings.OnlyFirstTenShown | main.py:186 | with the page count fixed at 2, the reachable pages show exactly the first ten greetings of a category, and none past them |
| Greetings.MainScreen.PageText | main.py:387-390 | the text sent or shared satisfies `PageLayout` for the current category and page |
| Greetings.PageLayout | main.py:387-390 | defined as: the page's total length plus one separator between each two greetings; greeting `5*page+k` of the category sits unchanged at offset `PieceStart(k)`; exactly `"\n---\n"` follows every greeting but the last |
| Greetings.PageTextLayout | main.py:387-390 | joining any page of any list by `"\n---\n"` gives a text with that layout |
| Greetings.MainScreen.PageLabelReadsBack | main.py:379-382 | under the invariant, the page label parses back to `(current_page+1, total_pages)` |
| Greetings.Table.Valid | main.py:76-89 | a greeting dict: at least one category, no category listed twice, and the greetings' key set equals the listed categories |
| Greetings.MainScreen.Valid | main.py:183-187 | the invariant every handler keeps: page in `[0, total_pages-1]`, prev disabled iff page 0, next disabled iff last page, label as rendered, category list = the festival's keys, category one of its keys, rows = the current page |
| Greetings.MainScreen.constructor | main.py:181-187 | starts on `FESTIVALS[0]`, on that table's first category and on page 0; prev is disabled, next is enabled, the label is `第1页/共2页`, and the invariant holds |
| Greetings.MainScreen.UpdateCategoryList | main.py:294-298 | the category list becomes the current festival's categories, in table order |
| Greetings.MainScreen.ShowCurrentPage | main.py:312-318 | the shown rows become the current page of the current category; the key must be in the table |
| Greetings.MainScreen.UpdatePageButtons | main.py:379-382 | prev is disabled iff the page is 0, next iff it is `total_pages-1`, and the label is `第{page+1}页/共{total_pages}页` |
| Greetings.MainScreen.SwitchFestival | main.py:276-292 | the already selected festival: nothing changes; another one: its key list, its first category and page 0, with the invariant kept and the clipboard untouched |
| Greetings.MainScreen.OnCategoryChange | main.py:306-310 | the category becomes `text` and the page 0; the festival, category list and clipboard do not change |
| Greetings.MainScreen.PrevPage | main.py:367-371 | steps back one page when the page is above 0; on page 0 nothing changes; the page stays in range |
| Greetings.MainScreen.NextPage | main.py:373-377 | steps forward one page when the page is below `total_pages-1`; on the last page nothing changes; the page stays in range |
| Greetings.MainScreen.CopyToClipboard | main.py:360-361 | the clipboard holds exactly the given text |
| Greetings.MainScreen.CopyRow | main.py:349 | row `k`'s copy button leaves greeting `5*page+k` of the current category on the clipboard |
| Greetings.MainScreen.SendBlessings | main.py:384-391 | the clipboard holds exactly the current page joined by `"\n---\n"` |
| Greetings.MainScreen.ShareBlessings | main.py:399-422 | without the share service the clipboard holds that same joined page; with it the clipboard is untouched |
| Splash.IndicatorFillsOne | main.py:167-169 | exactly one dot is filled when the index is a position in range, and none otherwise |
| Splash.CountdownLabels | main.py:156-162 | defined as the labels a countdown from `c` shows: `c 秒` first, then those from `c-1`, and `进入` at 0 |
| Splash.CountdownLabelsShape | main.py:156-162 | counting down from `c` shows `c 秒` … `1 秒` and then `进入`: `c+1` labels, none of the earlier ones `进入` |
| Splash.CountdownLabelsDistinct | main.py:156-162 | no label repeats during a countdown from `c` |
| Splash.StartScreen.Valid | main.py:151-169 | the countdown is never negative and there is one indicator per carousel image |
| Splash.SecondsLabelIsNotEnter | main.py:158-161 | no countdown label `{n} 秒` can be mistaken for `进入` |
| Splash.StartScreen.constructor | main.py:151-154 | after the first direct countdown call the label is `3 秒` and the counter is 2; dot 0 is filled; both timers are scheduled |
| Splash.StartScreen.UpdateCountdown | main.py:156-162 | above 0: shows the value before the decrement, decrements by one, and keeps the timer; at 0: shows `进入`, stays 0 and stops the timer; never negative |
| Splash.StartScreen.CountdownTick | main.py:153 | a firing of the interval runs the countdown and unschedules it once the countdown returns `False`; unscheduled, it changes nothing |
| Splash.StartScreen.GoMainTick | main.py:154 | the one-shot moves to `main` once and is then gone; once gone, a firing changes nothing |
| Splash.StartScreen.UpdateIndicator | main.py:167-169 | every dot text is rewritten: `●` at the given index, `○` at every other dot (`IndicatorTexts`) |
| Splash.StartScreen.OnSlideChanged | main.py:164-165 | as bound to `current_slide`, the handler passes the slide widget, so no dot is filled |
| Splash.StartScreen.OnSlideIndexChanged | main.py:164-165 | given the carousel's index, exactly the dot at that index is filled |
| Splash.StartScreen.SkipToMain | main.py:171-174 | both timers are cancelled and the current screen is `main` |
| Splash.StartScreen.GoMain | main.py:176-177 | the current screen is `main` |
| Splash.CountdownFromStart | main.py:151-162 | from a fresh splash screen the labels are `3 秒`, `2 秒`, `1 秒`, `进入`, and the interval is unscheduled afterwards |
| Splash.SkipThenTimersFire | main.py:171-174 | after skip, later firings of either timer leave the screen on `main` and the countdown label as it was |

## Left out

- Widget construction, layout, colours, fonts, canvas rectangles, the festival buttons' background colours, the Spinner's `values`/`text` widgets and the About popup (main.py:93-149, 189-274, 320-358, 426-446). These concern the UI toolkit and carry no logic.
- SwitchFestival: assigning the spinner's text (main.py:289) makes Kivy fire `on_category_change` once, and only when that text changes. The call sets the new first category and resets `current_page` to 0 before line 290 does the same, so the end state is the same. The model leaves the call out.
- When the clock fires its callbacks. Real time is outside the model; each firing is an explicit call (`CountdownTick`, `GoMainTick`).
- Toasts and console messages (main.py:362-365, 392-395, 415-424). They are output only.
- The Android share intent branch of `share_blessings` (main.py:406-420). It is a foreign platform call, so `ShareBlessings` only says that this branch leaves the clipboard alone.
- The platform probes for `toast` and for `jnius` at import time (main.py:57-71), and the crash log hook (main.py:42-53). These are foreign imports and file I/O; `share_available` becomes the parameter of `ShareBlessings`.
- The greeting strings themselves. They are elided placeholders in the source (main.py:77-88), so the tables are abstract.
- The screen manager. Only its current screen name is kept, as a field of `StartScreen`.

## Findings

| source | as written | input that shows it | evidently intended | confidence | as-written member | corrected member |
|---|---|---|---|---|---|---|
| main.py:105 | `on_slide_changed` is bound to the carousel's `current_slide`, which hands the slide widget as `index`; `update_indicator` then compares each dot position with a widget, which is never equal | any slide change, e.g. swiping to the second image: afterwards all three dots read `○` | pass the carousel's position (`carousel.index`), so that the dot of the shown image is filled | high, not executed | Splash.StartScreen.OnSlideChanged (with Splash.IndicatorFillsOne on a `Widget` argument) | Splash.StartScreen.OnSlideIndexChanged |
