/** The inventory list: one resource loaded whole, a four-field search, and a
  * client-side page window over the filtered items. The page is state of the
  * panel, set by the pagination buttons with no clamping of its own. */
module InventoryList {
  import opened Seqs
  import opened Text
  import opened Precedence
  import opened Paging
  import opened Endpoints

  const InventoryUrl := ApiUrl("get/inventaris")

  /** `InventoryItem`, all fields as the API sends them. */
  datatype InventoryItem = InventoryItem(
    idInventaris: string,
    namaInventaris: string,
    gambar: string,
    kondisiInventaris: string,
    hakMilik: string,
    pjInventaris: string,
    deskripsi: string,
    createdAt: string,
    updatedAt: string)

  /** `data?.data || []`: a missing response is an empty inventory. */
  function InventoryRows(data: Option<seq<InventoryItem>>): (rows: seq<InventoryItem>)
    ensures data.None? ==> rows == []
    ensures data.Some? ==> rows == data.value
  {
    if data.Some? then data.value else []
  }

  /** The search test: the query occurs, ignoring case, in the name, the condition,
    * the ownership or the description. */
  predicate ItemMatches(item: InventoryItem, query: string)
    ensures query == "" ==> ItemMatches(item, query)
  {
    ContainsEmpty(Lower(item.namaInventaris));
    var q := Lower(query);
    || Contains(Lower(item.namaInventaris), q)
    || Contains(Lower(item.kondisiInventaris), q)
    || Contains(Lower(item.hakMilik), q)
    || Contains(Lower(item.deskripsi), q)
  }

  function FilterItems(items: seq<InventoryItem>, query: string): (r: seq<InventoryItem>)
    ensures |r| <= |items|
    ensures forall j :: 0 <= j < |r| ==> r[j] in items && ItemMatches(r[j], query)
    ensures forall j :: 0 <= j < |items| && ItemMatches(items[j], query) ==> items[j] in r
  {
    Filter(items, (item: InventoryItem) => ItemMatches(item, query))
  }

  /** The filter keeps order: it acts on a list as on its two halves in turn. */
  lemma FilterItemsOrder(a: seq<InventoryItem>, b: seq<InventoryItem>, query: string)
    ensures FilterItems(a + b, query) == FilterItems(a, query) + FilterItems(b, query)
  {
    FilterConcat(a, b, (item: InventoryItem) => ItemMatches(item, query));
  }

  /** The search ignores the case of the query. */
  lemma ItemMatchesIgnoresQueryCase(item: InventoryItem, query: string)
    ensures ItemMatches(item, Lower(query)) == ItemMatches(item, query)
  {
    LowerIdempotent(query);
  }

  /** An empty query keeps the whole inventory. */
  lemma EmptyQueryKeepsAll(items: seq<InventoryItem>)
    ensures FilterItems(items, "") == items
  {
    var p := (item: InventoryItem) => ItemMatches(item, "");
    forall j | 0 <= j < |items| ensures p(items[j]) {
      ContainsEmpty(Lower(items[j].namaInventaris));
    }
    FilterKeepsAll(items, p);
  }

  /** The panel has one resource and no retry button. */
  datatype NoRetry = NoRetry

  /** Lines 56-62: loading first, then the error (no retry), then the list. */
  function InventoryScreen(inventory: ResourceView): (v: Screen<NoRetry>)
    ensures v.Spinner? <==> inventory.loading
    ensures v.ErrorView? <==> !inventory.loading && Failed(inventory)
    ensures v.ErrorView? ==> Some(v.message) == inventory.error && v.retry.None?
    ensures v.Content? <==> Settled(inventory)
    ensures v.Spinner? || v.ErrorView? || v.Content?
  {
    var rs := [inventory];
    assert rs[0] == inventory;
    match Merge(rs)
    case Spin => Spinner
    case ShowError(_, m) => ErrorView(m, None)
    case AllReady => Content
  }

  /** The panel's own state: the current page, the query and the item in the modal. */
  class InventoryPanel {
    var currentPage: int
    var searchQuery: string
    var selectedItem: Option<InventoryItem>

    function Filtered(rows: seq<InventoryItem>): seq<InventoryItem>
      reads this
    {
      FilterItems(rows, searchQuery)
    }

    /** Line 47: enough pages of nine for every match, and no empty last page. */
    function TotalPages(rows: seq<InventoryItem>): (total: nat)
      reads this
      ensures total * ItemsPerPage >= |Filtered(rows)|
      ensures total > 0 ==> (total - 1) * ItemsPerPage < |Filtered(rows)|
      ensures total == 0 <==> Filtered(rows) == []
    {
      PageCount(|Filtered(rows)|)
    }

    /** The cards shown: the current page of the filtered items. */
    function CurrentItems(rows: seq<InventoryItem>): (shown: seq<InventoryItem>)
      reads this
      ensures |shown| <= ItemsPerPage
      ensures forall k :: 0 <= k < |shown| ==> shown[k] in rows && ItemMatches(shown[k], searchQuery)
      ensures currentPage >= 1 && shown != [] ==> (currentPage - 1) * ItemsPerPage + |shown| <= |Filtered(rows)|
      ensures currentPage >= 1 ==>
                forall k :: 0 <= k < |shown| ==> shown[k] == Filtered(rows)[(currentPage - 1) * ItemsPerPage + k]
      ensures currentPage >= 1 ==>
                |shown| == if (currentPage - 1) * ItemsPerPage < |Filtered(rows)|
                           then Min(ItemsPerPage, |Filtered(rows)| - (currentPage - 1) * ItemsPerPage) else 0
    {
      var f := Filtered(rows);
      var page := PageSlice(f, currentPage);
      assert forall x :: x in f ==> x in rows && ItemMatches(x, searchQuery);
      page
    }

    /** Line 102: the controls exist only when there is more than one page. */
    predicate ControlsShown(rows: seq<InventoryItem>)
      reads this
      ensures ControlsShown(rows) <==> |Filtered(rows)| > ItemsPerPage
    {
      TotalPages(rows) > 1
    }

    /** The page points at an existing page, or at page 1 of an empty result. */
    predicate InRange(rows: seq<InventoryItem>)
      reads this
    {
      currentPage == 1 || 1 <= currentPage <= TotalPages(rows)
    }

    constructor ()
      ensures currentPage == 1 && searchQuery == "" && selectedItem.None?
    {
      currentPage := 1;
      searchQuery := "";
      selectedItem := None;
    }

    /** Lines 23-26: a new query always starts again from page 1. */
    method SearchChange(query: string)
      modifies this
      ensures searchQuery == query && currentPage == 1 && selectedItem == old(selectedItem)
    {
      searchQuery := query;
      currentPage := 1;
    }

    /** Lines 52-54: the page is set as given, with no clamp. */
    method PageChange(page: int)
      modifies this
      ensures currentPage == page && searchQuery == old(searchQuery) && selectedItem == old(selectedItem)
    {
      currentPage := page;
    }

    /** Lines 104-110: Previous, disabled on page 1. */
    method ClickPrevious(rows: seq<InventoryItem>)
      modifies this
      ensures currentPage == if old(ControlsShown(rows)) && old(currentPage) != 1 then old(currentPage) - 1
                             else old(currentPage)
      ensures searchQuery == old(searchQuery) && selectedItem == old(selectedItem)
      ensures old(InRange(rows)) ==> InRange(rows)
    {
      if ControlsShown(rows) && currentPage != 1 {
        PageChange(currentPage - 1);
      }
    }

    /** Lines 120-126: Next, disabled on the last page. */
    method ClickNext(rows: seq<InventoryItem>)
      modifies this
      ensures currentPage == if old(ControlsShown(rows)) && old(currentPage) != old(TotalPages(rows))
                             then old(currentPage) + 1 else old(currentPage)
      ensures searchQuery == old(searchQuery) && selectedItem == old(selectedItem)
      ensures old(InRange(rows)) ==> InRange(rows)
    {
      if ControlsShown(rows) && currentPage != TotalPages(rows) {
        PageChange(currentPage + 1);
      }
    }

    /** Lines 111-119: the numbered button at `index` (page `index + 1`); there is
      * one per page, so a click on any other index finds no button. */
    method ClickPageNumber(rows: seq<InventoryItem>, index: nat)
      modifies this
      ensures currentPage == if old(ControlsShown(rows)) && index < old(TotalPages(rows)) then index + 1
                             else old(currentPage)
      ensures searchQuery == old(searchQuery) && selectedItem == old(selectedItem)
      ensures old(InRange(rows)) ==> InRange(rows)
    {
      if ControlsShown(rows) && index < TotalPages(rows) {
        PageChange(index + 1);
      }
    }

    /** A click on a card opens it in the detail modal. */
    method OpenItem(item: InventoryItem)
      modifies this
      ensures selectedItem == Some(item) && currentPage == old(currentPage) && searchQuery == old(searchQuery)
    {
      selectedItem := Some(item);
    }

    method CloseModal()
      modifies this
      ensures selectedItem.None? && currentPage == old(currentPage) && searchQuery == old(searchQuery)
    {
      selectedItem := None;
    }
  }

  /** Whatever the buttons have done, a page in range shows between one and nine
    * cards, unless nothing matches the query. */
  lemma InRangePageIsNeverBlank(panel: InventoryPanel, rows: seq<InventoryItem>)
    requires panel.InRange(rows)
    ensures |panel.CurrentItems(rows)| <= ItemsPerPage
    ensures panel.CurrentItems(rows) == [] <==> panel.Filtered(rows) == []
  {
  }

  /** Stepping through every page shows every filtered item exactly once, in order. */
  lemma EveryMatchIsOnSomePage(panel: InventoryPanel, rows: seq<InventoryItem>)
    ensures PagesFrom(panel.Filtered(rows), 1, panel.TotalPages(rows)) == panel.Filtered(rows)
  {
    PagesCoverAll(panel.Filtered(rows));
  }
}
