/**
 * The dashboard pager: the "Showing from–to of total" line, the page buttons with
 * ellipses, and the disabled state of the Prev and Next buttons. Nothing is shown
 * for a single page.
 */
module Pagination {

  /** An entry of the `pages` array: a page number or the string `"..."`. */
  datatype Entry = Num(n: int) | Ellipsis

  function Max(a: int, b: int): int { if a < b then b else a }
  function Min(a: int, b: int): int { if a < b then a else b }

  /** The consecutive page numbers `lo..hi`, empty when `hi < lo`. */
  function Run(lo: int, hi: int): (r: seq<Entry>)
    ensures |r| == if hi < lo then 0 else hi - lo + 1
    ensures forall k :: 0 <= k < |r| ==> r[k] == Num(lo + k)
  {
    if hi < lo then [] else seq(hi - lo + 1, k requires 0 <= k < hi - lo + 1 => Num(lo + k))
  }

  /**
   * What the list with ellipses promises for more than seven pages, for any `page`:
   * it starts at 1 and ends at `totalPages`, has at most seven entries, its numbers
   * rise strictly and are the first page, the last page and the in-range neighbours
   * of `page`; consecutive numbers stand side by side and an ellipsis stands exactly
   * where numbers are skipped. For an in-range `page` the page itself is listed, an
   * ellipsis follows 1 iff `page > 3` and one precedes the last entry iff
   * `page < totalPages - 2`.
   */
  ghost predicate Windowed(page: int, totalPages: int, pages: seq<Entry>) {
    Ends(totalPages, pages) && Rising(pages) && Members(page, totalPages, pages) &&
    Gaps(pages) && InRange(page, totalPages, pages)
  }

  ghost predicate Ends(totalPages: int, pages: seq<Entry>) {
    2 <= |pages| <= 7 && pages[0] == Num(1) && pages[|pages| - 1] == Num(totalPages)
  }

  ghost predicate Rising(pages: seq<Entry>) {
    forall i, j :: 0 <= i < j < |pages| && pages[i].Num? && pages[j].Num? ==> pages[i].n < pages[j].n
  }

  ghost predicate Members(page: int, totalPages: int, pages: seq<Entry>) {
    forall k :: Num(k) in pages <==> k == 1 || k == totalPages || (page - 1 <= k <= page + 1 && 1 < k < totalPages)
  }

  ghost predicate Gaps(pages: seq<Entry>) {
    (forall i :: 0 <= i < |pages| - 1 && pages[i].Num? && pages[i + 1].Num? ==> pages[i + 1].n == pages[i].n + 1) &&
    (forall i :: 0 <= i < |pages| && pages[i] == Ellipsis ==>
       0 < i < |pages| - 1 && pages[i - 1].Num? && pages[i + 1].Num? && pages[i - 1].n + 1 < pages[i + 1].n)
  }

  ghost predicate InRange(page: int, totalPages: int, pages: seq<Entry>) {
    2 <= |pages| &&
    (1 <= page <= totalPages ==>
       Num(page) in pages &&
       (pages[1] == Ellipsis <==> page > 3) &&
       (pages[|pages| - 2] == Ellipsis <==> page < totalPages - 2))
  }

  /** The list the else-branch builds, written as the concatenation of its parts. */
  function Layout(page: int, totalPages: int): seq<Entry> {
    Head(page) + Run(Max(2, page - 1), Min(totalPages - 1, page + 1)) + Tail(page, totalPages)
  }

  /** Page 1, and an ellipsis after it when the window starts above page 2. */
  function Head(page: int): seq<Entry> {
    [Num(1)] + (if page > 3 then [Ellipsis] else [])
  }

  /** An ellipsis when the window ends below the page before last, and the last page. */
  function Tail(page: int, totalPages: int): seq<Entry> {
    (if page < totalPages - 2 then [Ellipsis] else []) + [Num(totalPages)]
  }

  function Lo(page: int): int { Max(2, page - 1) }
  function Hi(page: int, totalPages: int): int { Min(totalPages - 1, page + 1) }

  /** How many entries come before the run, are in it, and come after it. */
  function HeadLen(page: int): nat { if page > 3 then 2 else 1 }
  function RunLen(page: int, totalPages: int): nat {
    if Hi(page, totalPages) < Lo(page) then 0 else Hi(page, totalPages) - Lo(page) + 1
  }
  function TailLen(page: int, totalPages: int): nat { if page < totalPages - 2 then 2 else 1 }
  function LayoutLen(page: int, totalPages: int): nat {
    HeadLen(page) + RunLen(page, totalPages) + TailLen(page, totalPages)
  }

  /** Entry `i` of the layout, read off by position. */
  function EntryAt(page: int, totalPages: int, i: int): Entry {
    var a, w := HeadLen(page), RunLen(page, totalPages);
    if i == 0 then Num(1)
    else if i < a then Ellipsis
    else if i < a + w then Num(Lo(page) + i - a)
    else if i < LayoutLen(page, totalPages) - 1 then Ellipsis
    else Num(totalPages)
  }

  lemma LayoutAt(page: int, totalPages: int)
    requires totalPages > 7
    ensures |Layout(page, totalPages)| == LayoutLen(page, totalPages)
    ensures forall i :: 0 <= i < LayoutLen(page, totalPages) ==> Layout(page, totalPages)[i] == EntryAt(page, totalPages, i)
  {
  }

  lemma PositionsIncrease(page: int, totalPages: int, i: int, j: int)
    requires totalPages > 7 && 0 <= i < j < LayoutLen(page, totalPages)
    requires EntryAt(page, totalPages, i).Num? && EntryAt(page, totalPages, j).Num?
    ensures EntryAt(page, totalPages, i).n < EntryAt(page, totalPages, j).n
  {
  }

  lemma PositionsAdjacent(page: int, totalPages: int, i: int)
    requires totalPages > 7 && 0 <= i < LayoutLen(page, totalPages) - 1
    ensures EntryAt(page, totalPages, i).Num? && EntryAt(page, totalPages, i + 1).Num? ==>
              EntryAt(page, totalPages, i + 1).n == EntryAt(page, totalPages, i).n + 1
    ensures EntryAt(page, totalPages, i) == Ellipsis ==>
              0 < i && EntryAt(page, totalPages, i - 1).Num? && EntryAt(page, totalPages, i + 1).Num? &&
              EntryAt(page, totalPages, i - 1).n + 1 < EntryAt(page, totalPages, i + 1).n
  {
  }

  lemma PositionOf(page: int, totalPages: int, k: int)
    requires totalPages > 7 && page - 1 <= k <= page + 1 && 1 < k < totalPages
    ensures var i := HeadLen(page) + k - Lo(page);
            0 <= i < LayoutLen(page, totalPages) && EntryAt(page, totalPages, i) == Num(k)
  {
  }

  lemma EllipsisPositions(page: int, totalPages: int)
    requires totalPages > 7 && 1 <= page <= totalPages
    ensures EntryAt(page, totalPages, 1) == Ellipsis <==> page > 3
    ensures EntryAt(page, totalPages, LayoutLen(page, totalPages) - 2) == Ellipsis <==> page < totalPages - 2
  {
  }

  /** `pages` is the layout, entry by entry. */
  ghost predicate IsLayout(page: int, totalPages: int, pages: seq<Entry>) {
    |pages| == LayoutLen(page, totalPages) &&
    forall i :: 0 <= i < |pages| ==> pages[i] == EntryAt(page, totalPages, i)
  }

  lemma LayoutRising(page: int, totalPages: int, pages: seq<Entry>)
    requires totalPages > 7 && IsLayout(page, totalPages, pages)
    ensures Rising(pages)
  {
    forall i, j | 0 <= i < j < |pages| && pages[i].Num? && pages[j].Num?
      ensures pages[i].n < pages[j].n
    {
      PositionsIncrease(page, totalPages, i, j);
    }
  }

  lemma LayoutGaps(page: int, totalPages: int, pages: seq<Entry>)
    requires totalPages > 7 && IsLayout(page, totalPages, pages)
    ensures Gaps(pages)
  {
    forall i | 0 <= i < |pages| - 1
      ensures pages[i].Num? && pages[i + 1].Num? ==> pages[i + 1].n == pages[i].n + 1
      ensures pages[i] == Ellipsis ==>
                0 < i < |pages| - 1 && pages[i - 1].Num? && pages[i + 1].Num? && pages[i - 1].n + 1 < pages[i + 1].n
    {
      PositionsAdjacent(page, totalPages, i);
    }
  }

  lemma LayoutMembers(page: int, totalPages: int, pages: seq<Entry>)
    requires totalPages > 7 && IsLayout(page, totalPages, pages)
    ensures Members(page, totalPages, pages)
  {
    forall k
      ensures Num(k) in pages <==> k == 1 || k == totalPages || (page - 1 <= k <= page + 1 && 1 < k < totalPages)
    {
      if page - 1 <= k <= page + 1 && 1 < k < totalPages {
        PositionOf(page, totalPages, k);
        assert pages[HeadLen(page) + k - Lo(page)] == Num(k);
      }
      if k == totalPages {
        assert pages[|pages| - 1] == Num(k);
      }
      if k == 1 {
        assert pages[0] == Num(k);
      }
      if Num(k) in pages {
        var i :| 0 <= i < |pages| && pages[i] == Num(k);
        assert EntryAt(page, totalPages, i) == Num(k);
      }
    }
  }

  lemma LayoutInRange(page: int, totalPages: int, pages: seq<Entry>)
    requires totalPages > 7 && IsLayout(page, totalPages, pages)
    requires Members(page, totalPages, pages)
    ensures InRange(page, totalPages, pages)
  {
    if 1 <= page <= totalPages {
      EllipsisPositions(page, totalPages);
      assert page == 1 || page == totalPages || (page - 1 <= page <= page + 1 && 1 < page < totalPages);
    }
  }

  lemma LayoutIsWindowed(page: int, totalPages: int)
    requires totalPages > 7
    ensures Windowed(page, totalPages, Layout(page, totalPages))
  {
    var pages := Layout(page, totalPages);
    LayoutAt(page, totalPages);
    assert IsLayout(page, totalPages, pages);
    LayoutRising(page, totalPages, pages);
    LayoutGaps(page, totalPages, pages);
    LayoutMembers(page, totalPages, pages);
    LayoutInRange(page, totalPages, pages);
  }

  /** The run grows by one number at its top. */
  lemma RunStep(lo: int, hi: int)
    requires lo <= hi
    ensures Run(lo, hi) == Run(lo, hi - 1) + [Num(hi)]
  {
  }

  /** `pages`, built by the two loops and the conditional pushes. */
  method PageList(page: int, totalPages: int) returns (pages: seq<Entry>)
    ensures totalPages <= 7 ==>
              |pages| == Max(totalPages, 0) && forall i :: 0 <= i < |pages| ==> pages[i] == Num(i + 1)
    ensures totalPages > 7 ==> Windowed(page, totalPages, pages)
  {
    pages := [];
    if totalPages <= 7 {
      var i := 1;
      while i <= totalPages
        invariant 1 <= i <= Max(totalPages, 0) + 1
        invariant |pages| == i - 1
        invariant forall k :: 0 <= k < |pages| ==> pages[k] == Num(k + 1)
      {
        pages := pages + [Num(i)];
        i := i + 1;
      }
    } else {
      pages := pages + [Num(1)];
      if page > 3 {
        pages := pages + [Ellipsis];
      }
      assert pages == Head(page);
      var lo, hi := Max(2, page - 1), Min(totalPages - 1, page + 1);
      var i := lo;
      while i <= hi
        invariant lo <= i <= Max(hi + 1, lo)
        invariant pages == Head(page) + Run(lo, i - 1)
      {
        RunStep(lo, i);
        pages := pages + [Num(i)];
        i := i + 1;
      }
      ghost var window := pages;
      assert window == Head(page) + Run(lo, hi);
      if page < totalPages - 2 {
        pages := pages + [Ellipsis];
      }
      pages := pages + [Num(totalPages)];
      assert pages == window + Tail(page, totalPages);
      LayoutIsWindowed(page, totalPages);
    }
  }

  /** What the pager renders. */
  datatype View =
    | Hidden
    | Shown(from: int, to: int, totalItems: int, pages: seq<Entry>, current: int,
            prevDisabled: bool, nextDisabled: bool)

  /**
   * `from = (page-1)*pageSize + 1` and `to = min(page*pageSize, totalItems)`: the last
   * item shown never exceeds the total, and on a page that has items the range is
   * non-empty and at most one page long.
   */
  function ShowingRange(page: int, pageSize: int, totalItems: int): (r: (int, int))
    ensures r.1 <= totalItems && r.1 <= page * pageSize
    ensures r.1 == totalItems || r.1 == page * pageSize
    ensures r.0 - 1 == (page - 1) * pageSize
    ensures pageSize > 0 && (page - 1) * pageSize < totalItems ==> r.0 <= r.1 && r.1 - r.0 < pageSize
  {
    ((page - 1) * pageSize + 1, Min(page * pageSize, totalItems))
  }

  method Render(page: int, totalPages: int, totalItems: int, pageSize: int) returns (v: View)
    ensures totalPages <= 1 <==> v == Hidden
    ensures v.Shown? ==>
              (v.from, v.to) == ShowingRange(page, pageSize, totalItems) && v.totalItems == totalItems &&
              v.current == page &&
              (v.prevDisabled <==> page == 1) && (v.nextDisabled <==> page == totalPages)
    ensures v.Shown? && totalPages <= 7 ==>
              |v.pages| == totalPages && forall i :: 0 <= i < totalPages ==> v.pages[i] == Num(i + 1)
    ensures v.Shown? && totalPages > 7 ==> Windowed(page, totalPages, v.pages)
  {
    if totalPages <= 1 {
      return Hidden;
    }
    var range := ShowingRange(page, pageSize, totalItems);
    var pages := PageList(page, totalPages);
    v := Shown(range.0, range.1, totalItems, pages, page, page == 1, page == totalPages);
  }
}
