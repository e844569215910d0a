/** The main screen shows a category's greetings five at a time:
    `start = page * 5`, `end = min(start + 5, len(blessings))`, and the page
    is `blessings[start:end]` under Python's slicing rules. */
module Pages {
  const PageSize: nat := 5

  function Min(a: int, b: int): int { if a <= b then a else b }

  /** Python's `s[a:b]` for non-negative bounds: both bounds are clamped to
      `len(s)`, and the slice is empty once `a >= b`. */
  function PySlice<T>(s: seq<T>, a: nat, b: nat): (r: seq<T>)
    ensures |r| == if a < b && a < |s| then Min(b, |s|) - a else 0
    ensures forall i :: 0 <= i < |r| ==> r[i] == s[a + i]
  {
    if a < b && a < |s| then s[a..Min(b, |s|)] else []
  }

  /** The greetings on page `page` of the list `s`. */
  function PageItems<T>(s: seq<T>, page: nat): (r: seq<T>)
    ensures |r| <= PageSize
    ensures |r| == if page * PageSize < |s| then Min(PageSize, |s| - page * PageSize) else 0
    ensures forall i :: 0 <= i < |r| ==> r[i] == s[page * PageSize + i]
  {
    var start := page * PageSize;
    PySlice(s, start, Min(start + PageSize, |s|))
  }

  /** A page is the contiguous run of the list from `page * 5`, and empty
      once that index is past the end. */
  lemma PageItemsIsRun<T>(s: seq<T>, page: nat)
    ensures page * PageSize >= |s| ==> PageItems(s, page) == []
    ensures page * PageSize < |s| ==>
      PageItems(s, page) == s[page * PageSize..Min(page * PageSize + PageSize, |s|)]
  {
    var r := PageItems(s, page);
    if page * PageSize < |s| {
      assert r == s[page * PageSize..Min(page * PageSize + PageSize, |s|)];
    }
  }

  /** The greetings of pages `0 .. n - 1`, one page after the other. */
  function FirstPages<T>(s: seq<T>, n: nat): seq<T>
  {
    if n == 0 then [] else FirstPages(s, n - 1) + PageItems(s, n - 1)
  }

  /** Paging through pages `0 .. n - 1` shows the first `5 * n` greetings, in
      order, each exactly once. */
  lemma {:induction false} FirstPagesArePrefix<T>(s: seq<T>, n: nat)
    ensures FirstPages(s, n) == s[..Min(n * PageSize, |s|)]
  {
    if n > 0 {
      FirstPagesArePrefix(s, n - 1);
      var m := Min((n - 1) * PageSize, |s|);
      PageItemsIsRun(s, n - 1);
      if (n - 1) * PageSize < |s| {
        assert s[..Min(n * PageSize, |s|)] == s[..m] + s[m..Min(n * PageSize, |s|)];
      }
    }
  }
}
