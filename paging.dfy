/** Page counts and page windows: both paginated panels show nine items per page. */
module Paging {
  import opened Seqs

  const ItemsPerPage := 9

  /** `Math.ceil(n / 9)` over natural numbers. */
  function PageCount(n: nat): (pages: nat)
    ensures pages * ItemsPerPage >= n
    ensures pages > 0 ==> (pages - 1) * ItemsPerPage < n
    ensures pages == 0 <==> n == 0
  {
    (n + ItemsPerPage - 1) / ItemsPerPage
  }

  /** How `Array.prototype.slice` reads an index: negative counts from the end,
    * and the result is clipped to `[0, n]`. */
  function SliceIndex(i: int, n: nat): (k: nat)
    ensures k <= n
    ensures 0 <= i ==> k == Min(i, n)
    ensures i < 0 ==> k == Max(n + i, 0)
  {
    if i < 0 then (if n + i < 0 then 0 else n + i) else (if i < n then i else n)
  }

  /** `s.slice(start, end)`. */
  function JsSlice<T>(s: seq<T>, start: int, end: int): (r: seq<T>)
    ensures |r| <= |s|
    ensures SliceIndex(start, |s|) < SliceIndex(end, |s|) ==>
              r == s[SliceIndex(start, |s|)..SliceIndex(end, |s|)]
    ensures SliceIndex(start, |s|) >= SliceIndex(end, |s|) ==> r == []
    ensures forall k :: 0 <= k < |r| ==> r[k] in s
  {
    var a, b := SliceIndex(start, |s|), SliceIndex(end, |s|);
    if a < b then
      assert forall k :: 0 <= k < b - a ==> s[a..b][k] == s[a + k];
      s[a..b]
    else []
  }

  /** Lines 48-50 of the inventory list: the items on page `page` (counted from 1). */
  function PageSlice<T>(items: seq<T>, page: int): (r: seq<T>)
    ensures |r| <= ItemsPerPage
    ensures forall k :: 0 <= k < |r| ==> r[k] in items
    ensures page >= 1 && r != [] ==> (page - 1) * ItemsPerPage + |r| <= |items|
    ensures page >= 1 ==> forall k :: 0 <= k < |r| ==> r[k] == items[(page - 1) * ItemsPerPage + k]
    ensures page >= 1 ==> |r| == if (page - 1) * ItemsPerPage < |items|
                                 then Min(ItemsPerPage, |items| - (page - 1) * ItemsPerPage) else 0
    ensures 1 <= page <= PageCount(|items|) <==> r != [] && page >= 1
  {
    var start := (page - 1) * ItemsPerPage;
    JsSlice(items, start, start + ItemsPerPage)
  }

  /** Pages `first` to `last`, one after the other. */
  function PagesFrom<T>(items: seq<T>, first: nat, last: nat): seq<T>
    decreases last + 1 - first
  {
    if first > last then [] else PageSlice(items, first) + PagesFrom(items, first + 1, last)
  }

  /** The pages from `first` to the last one hold exactly the items from that page on. */
  lemma {:induction false} PagesFromRest<T>(items: seq<T>, first: nat)
    requires first >= 1
    ensures PagesFrom(items, first, PageCount(|items|)) == items[Min((first - 1) * ItemsPerPage, |items|)..]
    decreases PageCount(|items|) + 1 - first
  {
    var total := PageCount(|items|);
    if first > total {
      assert (first - 1) * ItemsPerPage >= total * ItemsPerPage;
    } else {
      PagesFromRest(items, first + 1);
      var a, b := (first - 1) * ItemsPerPage, Min(first * ItemsPerPage, |items|);
      assert a < |items|;
      assert PageSlice(items, first) == items[a..b];
      assert items[a..b] + items[b..] == items[a..];
    }
  }

  /** Paging loses and repeats nothing: pages 1 to the page count, joined, are the list. */
  lemma PagesCoverAll<T>(items: seq<T>)
    ensures PagesFrom(items, 1, PageCount(|items|)) == items
  {
    PagesFromRest(items, 1);
  }
}
