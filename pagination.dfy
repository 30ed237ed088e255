/**
 * The pagination arithmetic shared by the booking and user sheets
 * (`components/sheets/BookingSheet.tsx`, `components/sheets/UserSheet.tsx`):
 * the page count, the page slice, the five-slot window of page numbers and
 * the previous/next buttons.
 */
module Pagination {
  import opened Seqs
  import opened Numbers

  /** `Math.ceil(list.length / pageSize)`. */
  function TotalPages(count: nat, pageSize: nat): (total: nat)
    requires pageSize > 0
    ensures total * pageSize >= count
    ensures total > 0 ==> (total - 1) * pageSize < count
    ensures total == 0 <==> count == 0
  {
    CeilDiv(count, pageSize)
  }

  /** How `Array.prototype.slice` reads an index: negative counts from the end, then clamped to the length. */
  function SliceIndex(i: int, len: nat): (k: nat)
    ensures k <= len
    ensures 0 <= i <= len ==> k == i
    ensures i < 0 ==> k == Max(0, len + i)
    ensures i > len ==> k == len
  {
    if i < 0 then (if len + i < 0 then 0 else len + i)
    else if i > len then len
    else i
  }

  /** `s.slice(start, end)`. */
  function Slice<T>(s: seq<T>, start: int, end: int): (r: seq<T>)
    ensures 0 <= start <= end <= |s| ==> r == s[start..end]
    ensures 0 <= start <= |s| <= end ==> r == s[start..]
    ensures start <= end ==> |r| <= end - start
  {
    var a := SliceIndex(start, |s|);
    var b := SliceIndex(end, |s|);
    if a < b then s[a..b] else []
  }

  /**
   * For any bounds, negative ones included, the slice holds the items
   * between the two indices as `SliceIndex` reads them, or nothing when
   * the end index does not lie after the start index.
   */
  lemma SliceClamped<T>(s: seq<T>, start: int, end: int)
    ensures var a, b := SliceIndex(start, |s|), SliceIndex(end, |s|);
      (a < b ==> Slice(s, start, end) == s[a..b]) && (b <= a ==> Slice(s, start, end) == [])
  {
  }

  /** `list.slice((currentPage - 1) * pageSize, (currentPage - 1) * pageSize + pageSize)`. */
  function Page<T>(s: seq<T>, currentPage: int, pageSize: nat): (r: seq<T>)
    requires pageSize > 0
    ensures |r| <= pageSize
    ensures currentPage >= 1 && (currentPage - 1) * pageSize <= |s| ==>
      var start := (currentPage - 1) * pageSize;
      r == s[start..if start + pageSize <= |s| then start + pageSize else |s|]
  {
    var start := (currentPage - 1) * pageSize;
    OffsetNonNegative(currentPage, pageSize);
    Slice(s, start, start + pageSize)
  }

  /**
   * Page 0, which "next" reaches on an empty list, and every page past the
   * end show nothing.
   */
  lemma PageOutOfRange<T>(s: seq<T>, currentPage: int, pageSize: nat)
    requires pageSize > 0
    requires currentPage == 0 || (currentPage >= 1 && (currentPage - 1) * pageSize >= |s|)
    ensures Page(s, currentPage, pageSize) == []
  {
  }

  /** The first item of an existing page is at a non-negative offset. */
  lemma OffsetNonNegative(currentPage: int, pageSize: nat)
    ensures currentPage >= 1 ==> (currentPage - 1) * pageSize >= 0
  {
  }

  /** Pages `1..k` one after another. */
  function FirstPages<T>(s: seq<T>, pageSize: nat, k: nat): seq<T>
    requires pageSize > 0
  {
    if k == 0 then [] else FirstPages(s, pageSize, k - 1) + Page(s, k, pageSize)
  }

  /** Each page starts where the previous one ended. */
  lemma PageStart(k: nat, pageSize: nat)
    requires k > 0
    ensures (k - 1) * pageSize + pageSize == k * pageSize
    ensures (k - 1) * pageSize <= k * pageSize
  {
  }

  lemma PrefixThenSlice<T>(s: seq<T>, a: nat, b: nat)
    requires a <= b <= |s|
    ensures s[..a] + s[a..b] == s[..b]
  {
  }

  /** Page `k` is the slice between the first `(k - 1) * pageSize` and the first `k * pageSize` items. */
  lemma PageAt<T>(s: seq<T>, pageSize: nat, k: nat)
    requires pageSize > 0 && k > 0
    ensures Min((k - 1) * pageSize, |s|) <= Min(k * pageSize, |s|)
    ensures Page(s, k, pageSize) == s[Min((k - 1) * pageSize, |s|)..Min(k * pageSize, |s|)]
  {
    PageStart(k, pageSize);
    OffsetNonNegative(k, pageSize);
  }

  /** The first `k` pages, in order, make up the first `k * pageSize` items. */
  lemma {:induction false} FirstPagesPrefix<T>(s: seq<T>, pageSize: nat, k: nat)
    requires pageSize > 0
    ensures FirstPages(s, pageSize, k) == s[..Min(k * pageSize, |s|)]
  {
    if k > 0 {
      OffsetNonNegative(k, pageSize);
      var a, b := Min((k - 1) * pageSize, |s|), Min(k * pageSize, |s|);
      FirstPagesPrefix(s, pageSize, k - 1);
      PageAt(s, pageSize, k);
      PrefixThenSlice(s, a, b);
      assert FirstPages(s, pageSize, k) == s[..a] + s[a..b];
    }
  }

  /** Pages `1..totalPages` partition the list: read in order, they give back every item exactly once. */
  lemma PagesPartition<T>(s: seq<T>, pageSize: nat)
    requires pageSize > 0
    ensures FirstPages(s, pageSize, TotalPages(|s|, pageSize)) == s
  {
    FirstPagesPrefix(s, pageSize, TotalPages(|s|, pageSize));
  }

  /** The number in slot `i` of the window, before the range check. */
  function SlotNumber(i: int, currentPage: int, totalPages: nat): int
  {
    if totalPages <= 5 then i + 1
    else if currentPage <= 3 then i + 1
    else if currentPage >= totalPages - 2 then totalPages - 4 + i
    else currentPage - 2 + i
  }

  /**
   * The page numbers shown: `Math.min(5, totalPages)` slots, each slot's
   * number dropped when it falls outside `1..totalPages`. No slot is ever
   * dropped: the window holds `Math.min(5, totalPages)` consecutive page
   * numbers, all within `1..totalPages`, and it shows the current page
   * whenever that page exists.
   */
  function Window(currentPage: int, totalPages: nat): (w: seq<int>)
    ensures |w| == Min(5, totalPages)
    ensures forall i :: 0 <= i < |w| ==> 1 <= w[i] <= totalPages
    ensures forall i :: 0 <= i < |w| - 1 ==> w[i + 1] == w[i] + 1
    ensures 1 <= currentPage <= totalPages ==> currentPage in w
  {
    var slots := seq(Min(5, totalPages), i => SlotNumber(i, currentPage, totalPages));
    assert forall i :: 0 <= i < |slots| ==> 1 <= slots[i] <= totalPages;
    FilterKeepsAll(slots, (n: int) => 1 <= n <= totalPages);
    if 1 <= currentPage <= totalPages then
      assert slots[currentPage - SlotNumber(0, currentPage, totalPages)] == currentPage;
      Filter(slots, (n: int) => 1 <= n <= totalPages)
    else
      Filter(slots, (n: int) => 1 <= n <= totalPages)
  }

  /** The range check never drops a slot, whatever the current page. */
  lemma WindowSlotsInRange(currentPage: int, totalPages: nat)
    ensures Window(currentPage, totalPages) == seq(Min(5, totalPages), i => SlotNumber(i, currentPage, totalPages))
  {
    var slots := seq(Min(5, totalPages), i => SlotNumber(i, currentPage, totalPages));
    assert forall i :: 0 <= i < |slots| ==> 1 <= slots[i] <= totalPages;
    FilterKeepsAll(slots, (n: int) => 1 <= n <= totalPages);
  }

  /** The "previous" button: `Math.max(1, prev - 1)`. */
  function Previous(currentPage: int): (p: int)
    ensures p >= 1
    ensures currentPage > 1 ==> p == currentPage - 1
    ensures currentPage <= 1 ==> p == 1
  {
    Max(1, currentPage - 1)
  }

  /** The "next" button: `Math.min(totalPages, prev + 1)`. */
  function Next(currentPage: int, totalPages: nat): (p: int)
    ensures p <= totalPages
    ensures currentPage < totalPages ==> p == currentPage + 1
    ensures currentPage >= totalPages ==> p == totalPages
  {
    Min(totalPages, currentPage + 1)
  }

  /** From a page that exists, both buttons land on a page that exists. */
  lemma StepsStayInRange(currentPage: int, totalPages: nat)
    requires 1 <= currentPage <= totalPages
    ensures 1 <= Previous(currentPage) <= totalPages
    ensures 1 <= Next(currentPage, totalPages) <= totalPages
  {
  }
}
