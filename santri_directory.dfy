/** The directory of santri currently in residence ("mondok"): one list loaded
  * whole, the two lookup tables, a client-side search, and a selected santri
  * whose detail view replaces the list. */
module SantriDirectory {
  import opened Seqs
  import opened Precedence
  import opened Endpoints
  import opened SantriRecords

  /** The list URL and the two table URLs are three different resources. */
  lemma ResourcesAreDistinct()
    ensures MondokUrl != KonsentrasiUrl && MondokUrl != AngkatanUrl && KonsentrasiUrl != AngkatanUrl
  {
    if MondokUrl == KonsentrasiUrl { ApiUrlInjective("get/santri/status_santri/mondok", "get/konsentrasi"); }
    if MondokUrl == AngkatanUrl { ApiUrlInjective("get/santri/status_santri/mondok", "get/angkatan"); }
    if KonsentrasiUrl == AngkatanUrl { ApiUrlInjective("get/konsentrasi", "get/angkatan"); }
  }

  /** The panel's own state: the search term and the selected santri. */
  class SantriPanel {
    var searchTerm: string
    var selectedSantriId: Option<string>

    constructor ()
      ensures searchTerm == "" && selectedSantriId.None?
    {
      searchTerm := "";
      selectedSantriId := None;
    }

    /** What the panel renders for the current state of its three hooks. */
    function Render(mondok: ResourceView, konsentrasi: ResourceView, angkatan: ResourceView): Screen<DirectoryResource>
      reads this
    {
      DirectoryScreen(mondok, konsentrasi, angkatan, selectedSantriId)
    }

    /** The cards listed under the search box. */
    function Listed(mondok: Option<seq<Santri>>, kons: Option<seq<Konsentrasi>>,
                    angk: Option<seq<Angkatan>>): (r: seq<Santri>)
      reads this
      ensures mondok.None? ==> r == []
      ensures mondok.Some? && searchTerm == "" ==> r == mondok.value
      ensures mondok.Some? ==> forall j :: 0 <= j < |r| ==> r[j] in mondok.value && MatchesSearch(r[j], searchTerm, kons, angk)
      ensures mondok.Some? ==> forall j :: 0 <= j < |mondok.value| && MatchesSearch(mondok.value[j], searchTerm, kons, angk) ==>
                mondok.value[j] in r
    {
      if mondok.Some? && searchTerm == "" then
        EmptyTermKeepsAll(mondok.value, kons, angk);
        FilterSantri(mondok, searchTerm, kons, angk)
      else
        FilterSantri(mondok, searchTerm, kons, angk)
    }

    method SetSearchTerm(term: string)
      modifies this
      ensures searchTerm == term && selectedSantriId == old(selectedSantriId)
    {
      searchTerm := term;
    }

    /** A click on a card opens that santri's detail in place of the list. */
    method SelectSantri(id: string)
      modifies this
      ensures selectedSantriId == Some(id) && searchTerm == old(searchTerm)
    {
      selectedSantriId := Some(id);
    }

    /** The detail view's close button returns to the list, keeping the search. */
    method CloseDetail()
      modifies this
      ensures selectedSantriId.None? && searchTerm == old(searchTerm)
    {
      selectedSantriId := None;
    }
  }

  /** In a settled directory the selection alone chooses the screen: a selected
    * santri shows that santri's detail, and no selection (or the empty id) the list. */
  lemma SelectionChoosesScreen(mondok: ResourceView, konsentrasi: ResourceView, angkatan: ResourceView, id: string)
    requires Settled(mondok) && Settled(konsentrasi) && Settled(angkatan)
    ensures id != "" ==> DirectoryScreen(mondok, konsentrasi, angkatan, Some(id)) == Detail(id)
    ensures id == "" ==> DirectoryScreen(mondok, konsentrasi, angkatan, Some(id)) == Content
    ensures DirectoryScreen(mondok, konsentrasi, angkatan, None) == Content
  {
  }
}
