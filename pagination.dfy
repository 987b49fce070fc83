/**
 * The page selector (src/components/ui/Pagination.tsx): all pages when
 * there are at most seven, otherwise seven entries around the current page
 * with '...' for the skipped runs, and the previous/next arrows.
 */
module Pagination {
  import opened Domain

  datatype Entry = Page(n: int) | Dots

  /** Nothing is drawn for a single page or none. */
  predicate Rendered(totalPages: int) { totalPages > 1 }

  /** Pages 1..n. */
  function Range(n: int): (r: seq<Entry>)
    ensures |r| == (if n < 0 then 0 else n)
    ensures forall i :: 0 <= i < |r| ==> r[i] == Page(i + 1)
    decreases n
  {
    if n <= 0 then [] else Range(n - 1) + [Page(n)]
  }

  /** `getPages`. */
  function Pages(current: int, total: int): seq<Entry>
  {
    if total <= 7 then Range(total)
    else if current <= 4 then [Page(1), Page(2), Page(3), Page(4), Page(5), Dots, Page(total)]
    else if current >= total - 3 then
      [Page(1), Dots, Page(total - 4), Page(total - 3), Page(total - 2), Page(total - 1), Page(total)]
    else [Page(1), Dots, Page(current - 1), Page(current), Page(current + 1), Dots, Page(total)]
  }

  /** The numbered entries strictly increase from left to right. */
  predicate Increasing(r: seq<Entry>)
  {
    forall i, j :: 0 <= i < j < |r| && r[i].Page? && r[j].Page? ==> r[i].n < r[j].n
  }

  /** Every '...' stands between two numbers and hides at least one page. */
  predicate DotsHidePages(r: seq<Entry>)
  {
    forall i :: 0 <= i < |r| && r[i].Dots? ==>
      0 < i < |r| - 1 && r[i - 1].Page? && r[i + 1].Page? && r[i + 1].n - r[i - 1].n > 1
  }

  /** Up to seven pages, all of them in order. */
  lemma FewPagesAllShown(current: int, total: int)
    requires total <= 7
    ensures Pages(current, total) == Range(total)
    ensures forall p :: 1 <= p <= total ==> Page(p) in Pages(current, total)
  {
    forall p | 1 <= p <= total
      ensures Page(p) in Pages(current, total)
    {
      assert Range(total)[p - 1] == Page(p);
    }
  }

  /** Past seven pages: exactly seven entries, from page 1 to the last page. */
  lemma ManyPagesSeven(current: int, total: int)
    requires total > 7
    ensures |Pages(current, total)| == 7
    ensures Pages(current, total)[0] == Page(1) && Pages(current, total)[6] == Page(total)
  {
  }

  /** The entries increase, the dots hide pages, and the current page is shown. */
  predicate WellFormedAround(r: seq<Entry>, current: int)
  {
    Increasing(r) && DotsHidePages(r) && Page(current) in r
  }

  lemma RangeWellFormed(current: int, total: int)
    requires 1 <= current <= total
    ensures WellFormedAround(Range(total), current)
  {
    assert Range(total)[current - 1] == Page(current);
  }

  lemma LowWindowWellFormed(current: int, total: int)
    requires 1 <= current <= 4 && total > 7
    ensures WellFormedAround([Page(1), Page(2), Page(3), Page(4), Page(5), Dots, Page(total)], current)
  {
    var r := [Page(1), Page(2), Page(3), Page(4), Page(5), Dots, Page(total)];
    assert r[current - 1] == Page(current);
  }

  lemma HighWindowWellFormed(current: int, total: int)
    requires total - 3 <= current <= total && total > 7
    ensures WellFormedAround([Page(1), Dots, Page(total - 4), Page(total - 3), Page(total - 2), Page(total - 1), Page(total)], current)
  {
    var r := [Page(1), Dots, Page(total - 4), Page(total - 3), Page(total - 2), Page(total - 1), Page(total)];
    assert r[current - total + 6] == Page(current);
  }

  lemma MiddleWindowWellFormed(current: int, total: int)
    requires 4 < current < total - 3
    ensures WellFormedAround([Page(1), Dots, Page(current - 1), Page(current), Page(current + 1), Dots, Page(total)], current)
  {
    var r := [Page(1), Dots, Page(current - 1), Page(current), Page(current + 1), Dots, Page(total)];
    assert r[3] == Page(current);
  }

  /** For a current page in range, the entries increase, the dots hide pages, and the current page is shown. */
  lemma PagesWellFormed(current: int, total: int)
    requires 1 <= current <= total
    ensures Increasing(Pages(current, total))
    ensures DotsHidePages(Pages(current, total))
    ensures Page(current) in Pages(current, total)
  {
    if total <= 7 {
      RangeWellFormed(current, total);
    } else if current <= 4 {
      LowWindowWellFormed(current, total);
    } else if current >= total - 3 {
      HighWindowWellFormed(current, total);
    } else {
      MiddleWindowWellFormed(current, total);
    }
  }

  /** The first and the last page, and the current page's neighbours, are always among the entries. */
  lemma PagesShowNeighbours(current: int, total: int)
    requires 1 <= current <= total
    ensures Page(1) in Pages(current, total) && Page(total) in Pages(current, total)
    ensures current > 1 ==> Page(current - 1) in Pages(current, total)
    ensures current < total ==> Page(current + 1) in Pages(current, total)
  {
    var r := Pages(current, total);
    if total <= 7 {
      assert r[0] == Page(1) && r[total - 1] == Page(total);
      if current > 1 { assert r[current - 2] == Page(current - 1); }
      if current < total { assert r[current] == Page(current + 1); }
    } else if current <= 4 {
      assert r[0] == Page(1) && r[6] == Page(total);
      if current > 1 { assert r[current - 2] == Page(current - 1); }
      assert r[current] == Page(current + 1);
    } else if current >= total - 3 {
      assert r[0] == Page(1) && r[6] == Page(total);
      assert r[current - total + 5] == Page(current - 1);
      if current < total { assert r[current - total + 7] == Page(current + 1); }
    } else {
      assert r[0] == Page(1) && r[6] == Page(total);
      assert r[2] == Page(current - 1) && r[4] == Page(current + 1);
    }
  }

  /** The previous arrow is off on the first page, the next arrow on the last. */
  function PrevDisabled(current: int): bool { current == 1 }

  function NextDisabled(current: int, total: int): bool { current == total }

  /** What each control asks for: the page before, the page itself, the page after. */
  datatype Click = Prev | Next | Number(n: int)

  function Requested(current: int, total: int, c: Click): (r: Option<int>)
    ensures c == Prev ==> (r.Some? <==> current != 1)
    ensures c == Next ==> (r.Some? <==> current != total)
    ensures r.Some? && c == Prev ==> r.value == current - 1
    ensures r.Some? && c == Next ==> r.value == current + 1
    ensures c.Number? ==> r == Some(c.n)
  {
    match c
    case Prev => if PrevDisabled(current) then None else Some(current - 1)
    case Next => if NextDisabled(current, total) then None else Some(current + 1)
    case Number(n) => Some(n)
  }

  /** Within the range, the arrows only ask for pages in the range. */
  lemma ArrowsStayInRange(current: int, total: int, c: Click)
    requires 1 <= current <= total
    requires !c.Number?
    ensures Requested(current, total, c).Some? ==> 1 <= Requested(current, total, c).value <= total
  {
  }

  /** The arrows undo each other: next after previous, and previous after next, come back to the page. */
  lemma ArrowsRoundTrip(current: int, total: int)
    requires 1 <= current <= total
    ensures current > 1 ==> Requested(Requested(current, total, Prev).value, total, Next) == Some(current)
    ensures current < total ==> Requested(Requested(current, total, Next).value, total, Prev) == Some(current)
  {
  }

  /** Every number the selector shows asks for a page in the range. */
  lemma ShownNumbersInRange(current: int, total: int, n: int)
    requires 1 <= current <= total
    requires Page(n) in Pages(current, total)
    ensures Requested(current, total, Number(n)) == Some(n) && 1 <= n <= total
  {
    var r := Pages(current, total);
    var k :| 0 <= k < |r| && r[k] == Page(n);
    if total <= 7 {
      assert r[k] == Page(k + 1);
    }
  }
}
