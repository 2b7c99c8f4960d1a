/** The alumni directory: three resources (the alumni page, the concentration
  * table, the cohort table), server-side pagination whose page number is part
  * of the alumni URL, a client-side search over the current page, and a
  * selected santri whose detail view replaces the list. */
module AlumniDirectory {
  import opened Seqs
  import opened Text
  import opened Precedence
  import opened Paging
  import opened SantriRecords
  import opened Endpoints

  const AlumniPath := "get/santri/status_santri/alumni?page="
  /** The page size the alumni URL asks the server for. */
  const LimitSuffix := "&limit=" + NatToString(ItemsPerPage)

  /** The alumni resource's URL for a page: the endpoint, then the page number,
    * which reads back from the URL, then a limit of nine records. */
  function AlumniUrl(page: nat): (url: string)
    ensures StartsWith(url, ApiRoot + AlumniPath)
    ensures |url| == |ApiRoot + AlumniPath| + |NatToString(page)| + |LimitSuffix|
    ensures url[|url| - |LimitSuffix|..] == LimitSuffix == "&limit=9"
    ensures ParseNat(url[|ApiRoot + AlumniPath|..|url| - |LimitSuffix|]) == Some(page)
  {
    var sp := NatToString(page);
    var head := ApiRoot + AlumniPath;
    var url := ApiUrl(AlumniPath + sp + LimitSuffix);
    assert url == head + sp + LimitSuffix;
    assert url[..|head|] == head;
    assert url[|head|..|url| - |LimitSuffix|] == sp;
    assert url[|url| - |LimitSuffix|..] == LimitSuffix;
    assert NatToString(ItemsPerPage) == "9";
    ParseNatToString(page);
    url
  }

  /** The URL names its page: different pages are different resources, so a page
    * change retargets the alumni hook and starts a new fetch cycle. */
  lemma AlumniUrlDeterminesPage(p: nat, q: nat)
    requires AlumniUrl(p) == AlumniUrl(q)
    ensures p == q
  {
    assert Some(p) == Some(q);
  }

  /** `alumniData ? Math.ceil(alumniData.count / 9) : 0` */
  function TotalAlumniPages(count: Option<nat>): (total: nat)
    ensures count.None? ==> total == 0
    ensures count.Some? ==> total * ItemsPerPage >= count.value
    ensures count.Some? && total > 0 ==> (total - 1) * ItemsPerPage < count.value
  {
    if count.Some? then PageCount(count.value) else 0
  }

  /** The pagination controls appear only when there are more than nine alumni,
    * and then there are at least two pages to move between. */
  predicate PagerShown(count: Option<nat>)
    ensures PagerShown(count) ==> TotalAlumniPages(count) >= 2
  {
    count.Some? && count.value > ItemsPerPage
  }

  /** `setAlumniPage(prev => Math.max(1, prev - 1))`: one page back, never below 1. */
  function PreviousPage(page: int): (p: int)
    ensures p >= 1
    ensures page > 1 ==> p == page - 1
    ensures page <= 1 ==> p == 1
  {
    Max(1, page - 1)
  }

  /** `setAlumniPage(prev => Math.min(totalAlumniPages, prev + 1))`: one page on,
    * never beyond the last. */
  function NextPage(page: int, total: nat): (p: int)
    ensures p <= total
    ensures page < total ==> p == page + 1
    ensures page >= total ==> p == total
  {
    Min(total, page + 1)
  }

  /** Previous is disabled on page 1, where a click would not move. */
  predicate PreviousDisabled(page: int)
    ensures PreviousDisabled(page) ==> PreviousPage(page) == page
  {
    page == 1
  }

  /** Next is disabled on the last page, where a click would not move. */
  predicate NextDisabled(page: int, total: nat)
    ensures NextDisabled(page, total) ==> NextPage(page, total) == page
  {
    page == total
  }

  /** While the controls are shown, both clamps keep a page inside `[1, total]`,
    * Previous never goes below 1 and Next never beyond the last page. */
  lemma ClampsKeepPageInRange(page: int, count: Option<nat>)
    requires PagerShown(count)
    requires 1 <= page <= TotalAlumniPages(count)
    ensures TotalAlumniPages(count) >= 2
    ensures 1 <= PreviousPage(page) <= TotalAlumniPages(count) && PreviousPage(page) <= page
    ensures 1 <= NextPage(page, TotalAlumniPages(count)) <= TotalAlumniPages(count)
    ensures NextPage(page, TotalAlumniPages(count)) >= page
    ensures page > 1 ==> PreviousPage(page) == page - 1
    ensures page < TotalAlumniPages(count) ==> NextPage(page, TotalAlumniPages(count)) == page + 1
  {
  }

  /** Lines 38-44 over the current page of alumni. */
  function FilteredAlumni(alumni: Option<seq<Santri>>, searchTerm: string,
                          kons: Option<seq<Konsentrasi>>, angk: Option<seq<Angkatan>>): (r: seq<Santri>)
    ensures alumni.None? ==> r == []
    ensures alumni.Some? ==> forall j :: 0 <= j < |r| ==> r[j] in alumni.value && MatchesSearch(r[j], searchTerm, kons, angk)
    ensures alumni.Some? ==> forall j :: 0 <= j < |alumni.value| && MatchesSearch(alumni.value[j], searchTerm, kons, angk) ==>
              alumni.value[j] in r
    ensures alumni.Some? && searchTerm == "" ==> r == alumni.value
  {
    if alumni.Some? && searchTerm == "" then
      EmptyTermKeepsAll(alumni.value, kons, angk);
      FilterSantri(alumni, searchTerm, kons, angk)
    else
      FilterSantri(alumni, searchTerm, kons, angk)
  }

  /** The panel's own state: the search term, the page (part of the alumni URL)
    * and the selected santri. */
  class AlumniPanel {
    var searchTerm: string
    var alumniPage: int
    var selectedSantriId: Option<string>

    predicate Valid()
      reads this
    {
      alumniPage >= 1
    }

    /** The URL the alumni hook is bound to in the current render. */
    function AlumniResourceUrl(): string
      reads this
      requires Valid()
    {
      AlumniUrl(alumniPage)
    }

    constructor ()
      ensures Valid()
      ensures searchTerm == "" && alumniPage == 1 && selectedSantriId.None?
    {
      searchTerm := "";
      alumniPage := 1;
      selectedSantriId := None;
    }

    /** Typing in the search box changes only the term; the page stays. */
    method SetSearchTerm(term: string)
      requires Valid()
      modifies this
      ensures Valid()
      ensures searchTerm == term && alumniPage == old(alumniPage) && selectedSantriId == old(selectedSantriId)
    {
      searchTerm := term;
    }

    /** A click on Previous; nothing happens while the control is hidden or disabled. */
    method ClickPrevious(count: Option<nat>)
      requires Valid()
      modifies this
      ensures Valid()
      ensures alumniPage == if PagerShown(count) && !PreviousDisabled(old(alumniPage))
                            then PreviousPage(old(alumniPage)) else old(alumniPage)
      ensures searchTerm == old(searchTerm) && selectedSantriId == old(selectedSantriId)
      ensures alumniPage != old(alumniPage) ==> AlumniResourceUrl() != old(AlumniResourceUrl())
    {
      var before := alumniPage;
      if PagerShown(count) && !PreviousDisabled(alumniPage) {
        alumniPage := PreviousPage(alumniPage);
      }
      if alumniPage != before && AlumniUrl(alumniPage) == AlumniUrl(before) {
        AlumniUrlDeterminesPage(alumniPage, before);
      }
    }

    /** A click on Next; nothing happens while the control is hidden or disabled. */
    method ClickNext(count: Option<nat>)
      requires Valid()
      modifies this
      ensures Valid()
      ensures alumniPage == if PagerShown(count) && !NextDisabled(old(alumniPage), TotalAlumniPages(count))
                            then NextPage(old(alumniPage), TotalAlumniPages(count)) else old(alumniPage)
      ensures searchTerm == old(searchTerm) && selectedSantriId == old(selectedSantriId)
      ensures alumniPage != old(alumniPage) ==> AlumniResourceUrl() != old(AlumniResourceUrl())
    {
      var before := alumniPage;
      var total := TotalAlumniPages(count);
      if PagerShown(count) && !NextDisabled(alumniPage, total) {
        alumniPage := NextPage(alumniPage, total);
      }
      if alumniPage != before && AlumniUrl(alumniPage) == AlumniUrl(before) {
        AlumniUrlDeterminesPage(alumniPage, before);
      }
    }

    /** A click on a card opens that santri's detail. */
    method SelectSantri(id: string)
      requires Valid()
      modifies this
      ensures Valid()
      ensures selectedSantriId == Some(id) && alumniPage == old(alumniPage) && searchTerm == old(searchTerm)
    {
      selectedSantriId := Some(id);
    }

    /** The detail view's close button returns to the list. */
    method CloseDetail()
      requires Valid()
      modifies this
      ensures Valid()
      ensures selectedSantriId.None? && alumniPage == old(alumniPage) && searchTerm == old(searchTerm)
    {
      selectedSantriId := None;
    }
  }
}
