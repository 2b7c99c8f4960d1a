/** The santri (student) record, the concentration and cohort lookup tables,
  * the two lookups with their fallback to the raw id, and the five-field
  * case-insensitive search, the card photo, and the screen both directories
  * derive from their three resources. AlumniDirectory, SantriDirectory and
  * SantriDetailView each carry an identical copy of the lookups; they are
  * defined once here. */
module SantriRecords {
  import opened Seqs
  import opened Text
  import opened Precedence
  import opened Endpoints

  /** The two lookup tables both directories load besides their own list. */
  const KonsentrasiUrl := ApiUrl("get/konsentrasi")
  const AngkatanUrl := ApiUrl("get/angkatan")
  /** The santri in residence, read by the santri directory and the academic panel. */
  const MondokUrl := ApiUrl("get/santri/status_santri/mondok")

  /** The fields of `SantriDetailData` the panels read. */
  datatype Santri = Santri(
    idSantri: string,
    namaLengkap: string,
    konsentrasi: string,
    angkatan: string,
    asalDaerah: string,
    kotaDomisili: string,
    foto: string)

  datatype Konsentrasi = Konsentrasi(idKonsentrasi: string, namaKonsentrasi: string, deskripsi: string)

  datatype Angkatan = Angkatan(idAngkatan: string, angkatan: string)

  /** `getKonsentrasiName(id)`; `table` is None when the response or its `data` is missing. */
  function KonsentrasiName(table: Option<seq<Konsentrasi>>, id: string): (name: string)
    ensures table.None? ==> name == id
    ensures table.Some? && (forall j :: 0 <= j < |table.value| ==> table.value[j].idKonsentrasi != id) ==>
              name == id
    ensures table.Some? ==>
              forall i :: 0 <= i < |table.value| && table.value[i].idKonsentrasi == id &&
                          (forall j :: 0 <= j < i ==> table.value[j].idKonsentrasi != id) ==>
                name == table.value[i].namaKonsentrasi
  {
    if table.None? then id
    else match Find(table.value, (k: Konsentrasi) => k.idKonsentrasi == id)
      case Some(k) => k.namaKonsentrasi
      case None => id
  }

  /** `getAngkatanName(id)`, the same shape over `id_angkatan` / `angkatan`. */
  function AngkatanName(table: Option<seq<Angkatan>>, id: string): (name: string)
    ensures table.None? ==> name == id
    ensures table.Some? && (forall j :: 0 <= j < |table.value| ==> table.value[j].idAngkatan != id) ==>
              name == id
    ensures table.Some? ==>
              forall i :: 0 <= i < |table.value| && table.value[i].idAngkatan == id &&
                          (forall j :: 0 <= j < i ==> table.value[j].idAngkatan != id) ==>
                name == table.value[i].angkatan
  {
    if table.None? then id
    else match Find(table.value, (a: Angkatan) => a.idAngkatan == id)
      case Some(a) => a.angkatan
      case None => id
  }

  /** `santriMondokData?.data.find(s => s.nama_lengkap_santri === name)`: the first
    * record with exactly that full name. */
  function RecordNamed(records: Option<seq<Santri>>, name: string): (r: Option<Santri>)
    ensures records.None? ==> r.None?
    ensures r.None? && records.Some? ==> forall j :: 0 <= j < |records.value| ==> records.value[j].namaLengkap != name
    ensures records.Some? ==>
              forall i :: 0 <= i < |records.value| && records.value[i].namaLengkap == name &&
                          (forall j :: 0 <= j < i ==> records.value[j].namaLengkap != name) ==>
                r == Some(records.value[i])
  {
    if records.None? then None else Find(records.value, (s: Santri) => s.namaLengkap == name)
  }

  /** `field.toLowerCase().includes(term.toLowerCase())`. */
  predicate FieldMatches(field: string, term: string)
  {
    Contains(Lower(field), Lower(term))
  }

  /** The filter's test: the term occurs, ignoring case, in the name, the resolved
    * concentration, the resolved cohort, the home region or the current city. */
  predicate MatchesSearch(s: Santri, term: string, kons: Option<seq<Konsentrasi>>, angk: Option<seq<Angkatan>>)
    ensures term == "" ==> MatchesSearch(s, term, kons, angk)
  {
    ContainsEmpty(Lower(s.namaLengkap));
    || FieldMatches(s.namaLengkap, term)
    || FieldMatches(KonsentrasiName(kons, s.konsentrasi), term)
    || FieldMatches(AngkatanName(angk, s.angkatan), term)
    || FieldMatches(s.asalDaerah, term)
    || FieldMatches(s.kotaDomisili, term)
  }

  /** `data?.data ? data.data.filter(...) : []` */
  function FilterSantri(records: Option<seq<Santri>>, term: string,
                        kons: Option<seq<Konsentrasi>>, angk: Option<seq<Angkatan>>): (r: seq<Santri>)
    ensures records.None? ==> r == []
    ensures records.Some? ==> |r| <= |records.value|
    ensures records.Some? ==> forall j :: 0 <= j < |r| ==> r[j] in records.value && MatchesSearch(r[j], term, kons, angk)
    ensures records.Some? ==>
              forall j :: 0 <= j < |records.value| && MatchesSearch(records.value[j], term, kons, angk) ==>
                records.value[j] in r
  {
    if records.None? then []
    else Filter(records.value, (s: Santri) => MatchesSearch(s, term, kons, angk))
  }

  /** The filter keeps order: a list filters as its two halves do, one after
    * the other, and a single record `x` is kept exactly when it matches. */
  lemma FilterSantriOrder(a: seq<Santri>, b: seq<Santri>, x: Santri, term: string,
                          kons: Option<seq<Konsentrasi>>, angk: Option<seq<Angkatan>>)
    ensures FilterSantri(Some(a + b), term, kons, angk) ==
            FilterSantri(Some(a), term, kons, angk) + FilterSantri(Some(b), term, kons, angk)
    ensures FilterSantri(Some([x]), term, kons, angk) == if MatchesSearch(x, term, kons, angk) then [x] else []
  {
    var p := (s: Santri) => MatchesSearch(s, term, kons, angk);
    FilterConcat(a, b, p);
    FilterSingleton(x, p);
  }

  /** An empty search term keeps every record, in order. */
  lemma EmptyTermKeepsAll(records: seq<Santri>, kons: Option<seq<Konsentrasi>>, angk: Option<seq<Angkatan>>)
    ensures FilterSantri(Some(records), "", kons, angk) == records
  {
    var p := (s: Santri) => MatchesSearch(s, "", kons, angk);
    forall j | 0 <= j < |records| ensures p(records[j]) {
      ContainsEmpty(Lower(records[j].namaLengkap));
    }
    FilterKeepsAll(records, p);
  }

  /** The search ignores the case of the term. */
  lemma SearchIgnoresTermCase(records: Option<seq<Santri>>, term: string,
                              kons: Option<seq<Konsentrasi>>, angk: Option<seq<Angkatan>>)
    ensures FilterSantri(records, Lower(term), kons, angk) == FilterSantri(records, term, kons, angk)
  {
    LowerIdempotent(term);
    if records.Some? {
      FilterCongruent(records.value, (s: Santri) => MatchesSearch(s, Lower(term), kons, angk),
                      (s: Santri) => MatchesSearch(s, term, kons, angk));
    }
  }

  /** A card shows the photo only when `foto_santri` is non-empty, from the uploads folder. */
  function CardPhoto(foto: string): (src: Option<string>)
    ensures src.None? <==> foto == ""
    ensures src.Some? ==> StartsWith(src.value, UploadsBase) && src.value[|UploadsBase|..] == foto
  {
    if foto == "" then None
    else
      var url := UploadsBase + foto;
      assert url[..|UploadsBase|] == UploadsBase;
      Some(url)
  }

  /** A directory's resources, in the order its error checks run: its own list first. */
  datatype DirectoryResource = Records | KonsentrasiTable | AngkatanTable

  /** The screen of both directories: the loading/error chain over the list and the
    * two tables, then the detail view when a santri is selected (a non-empty id),
    * else the list. */
  function DirectoryScreen(records: ResourceView, konsentrasi: ResourceView, angkatan: ResourceView,
                           selected: Option<string>): (v: Screen<DirectoryResource>)
    ensures v.Spinner? <==> records.loading || konsentrasi.loading || angkatan.loading
    ensures !(records.loading || konsentrasi.loading || angkatan.loading) ==>
              v == if Failed(records) then ErrorView(records.error.value, Some(Records))
                   else if Failed(konsentrasi) then ErrorView(konsentrasi.error.value, Some(KonsentrasiTable))
                   else if Failed(angkatan) then ErrorView(angkatan.error.value, Some(AngkatanTable))
                   else if selected.Some? && selected.value != "" then Detail(selected.value)
                   else Content
    ensures v.Detail? ==> Settled(records) && Settled(konsentrasi) && Settled(angkatan) &&
                          selected == Some(v.santriId)
  {
    var rs := [records, konsentrasi, angkatan];
    var handles := [Records, KonsentrasiTable, AngkatanTable];
    assert rs[0] == records && rs[1] == konsentrasi && rs[2] == angkatan;
    match Merge(rs)
    case Spin => Spinner
    case ShowError(i, m) => ErrorView(m, Some(handles[i]))
    case AllReady => if selected.Some? && selected.value != "" then Detail(selected.value) else Content
  }
}
