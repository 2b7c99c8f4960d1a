/** The academic panel: the academic summary and the list of santri in
  * residence (for domiciles and photos). It shows the two coordinators, this
  * month's memorisation with each santri's overall progress, the santri from
  * Makassar entitled to go home, the supervisors' (musyrif) performance, and the
  * academic projects. */
module AcademicProgress {
  import opened Seqs
  import opened Text
  import opened Precedence
  import opened Endpoints
  import opened Display
  import opened SantriRecords
  import opened Projects

  const AkademikUrl := ApiUrl("akademik")
  const NotAvailable := "N/A"
  const Makassar := "makassar"
  /** Dawn recitations (setoran shubuh) expected in a month. */
  const SetoranTarget := 20
  const FixedMusyrifPhoto := PanelPhotoUrl("41d75-pas-foto-santri_20250630_024523_0020.png")
  const MusyrifLimit := 4

  /** A coordinator in `pimpinan_akademik`. */
  datatype Leader = Leader(namaLengkap: string, foto: string, namaJabatan: string)

  /** A row of `tahfidz_bulan_ini`. `setoranShubuh` is what `parseFloat` makes of
    * `jumlah_setoran_shubuh`, restricted to whole counts; None stands for NaN. */
  datatype TahfidzEntry = TahfidzEntry(namaLengkap: string, foto: string, setoranShubuh: Option<nat>, juzDisetor: string)

  /** A row of `progres_tahfidz_santri`. */
  datatype ProgressEntry = ProgressEntry(idSantri: string, namaLengkap: string, totalJuzHafalan: string,
                                         daftarJuzTerhafal: Option<string>)

  /** A row of `kinerja_musyrif`. */
  datatype Musyrif = Musyrif(namaMusyrif: string, hariIni: string, bulanIni: string, tahunIni: string,
                             persentaseKenaikan: Option<string>)

  /** The panel's resources, in the order its error checks run. */
  datatype AcademicResource = Akademik | Mondok

  /** Lines 13-15: either resource loading shows the spinner; then the academic
    * error, then the mondok error, each with its own retry. */
  function AcademicScreen(akademik: ResourceView, mondok: ResourceView): (v: Screen<AcademicResource>)
    ensures v.Spinner? <==> akademik.loading || mondok.loading
    ensures !(akademik.loading || mondok.loading) ==>
              v == if Failed(akademik) then ErrorView(akademik.error.value, Some(Akademik))
                   else if Failed(mondok) then ErrorView(mondok.error.value, Some(Mondok))
                   else Content
  {
    var rs := [akademik, mondok];
    var handles := [Akademik, Mondok];
    assert rs[0] == akademik && rs[1] == mondok;
    match Merge(rs)
    case Spin => Spinner
    case ShowError(i, m) => ErrorView(m, Some(handles[i]))
    case AllReady => Content
  }

  /** What a coordinator card shows: the photo when there is one, and the
    * position and name each falling back to "N/A". */
  datatype LeaderCard = LeaderCard(photo: Option<string>, jabatan: string, nama: string)

  function LeaderCardOf(leader: Option<Leader>): (c: LeaderCard)
    ensures c.photo.Some? <==> leader.Some? && leader.value.foto != ""
    ensures c.photo.Some? ==> c.photo.value == PanelPhotoUrl(leader.value.foto)
    ensures leader.None? ==> c.jabatan == NotAvailable && c.nama == NotAvailable
    ensures leader.Some? ==> c.jabatan == TextOr(Some(leader.value.namaJabatan), NotAvailable) &&
                             c.nama == TextOr(Some(leader.value.namaLengkap), NotAvailable)
  {
    if leader.None? then LeaderCard(None, NotAvailable, NotAvailable)
    else
      var l := leader.value;
      LeaderCard(if l.foto != "" then Some(PanelPhotoUrl(l.foto)) else None,
                 TextOr(Some(l.namaJabatan), NotAvailable), TextOr(Some(l.namaLengkap), NotAvailable))
  }

  /** Lines 19-22: the current city of the first santri in residence with exactly
    * that name, else "N/A". */
  function SantriDomisili(mondok: Option<seq<Santri>>, nama: string): (d: string)
    ensures mondok.None? ==> d == NotAvailable
    ensures mondok.Some? && (forall j :: 0 <= j < |mondok.value| ==> mondok.value[j].namaLengkap != nama) ==>
              d == NotAvailable
    ensures mondok.Some? ==>
              forall i :: 0 <= i < |mondok.value| && mondok.value[i].namaLengkap == nama &&
                          (forall j :: 0 <= j < i ==> mondok.value[j].namaLengkap != nama) ==>
                d == mondok.value[i].kotaDomisili
  {
    match RecordNamed(mondok, nama)
    case Some(s) => s.kotaDomisili
    case None => NotAvailable
  }

  /** Lines 25-27: the santri lives in Makassar (any letter case) and has made at
    * least the full target of dawn recitations, as a percentage of 20. */
  predicate MakassarEligible(e: TahfidzEntry, mondok: Option<seq<Santri>>)
    ensures MakassarEligible(e, mondok) ==> e.setoranShubuh.Some? && e.setoranShubuh.value >= SetoranTarget
    ensures MakassarEligible(e, mondok) ==> RecordNamed(mondok, e.namaLengkap).Some?
  {
    && Lower(SantriDomisili(mondok, e.namaLengkap)) == Makassar
    && e.setoranShubuh.Some?
    && (e.setoranShubuh.value as real) / (SetoranTarget as real) * 100.0 >= 100.0
  }

  /** For whole counts the percentage test is just "at least 20". */
  lemma MakassarThresholdIsTwenty(e: TahfidzEntry, mondok: Option<seq<Santri>>)
    ensures MakassarEligible(e, mondok) <==>
              Lower(SantriDomisili(mondok, e.namaLengkap)) == Makassar &&
              e.setoranShubuh.Some? && e.setoranShubuh.value >= SetoranTarget
  {
    if e.setoranShubuh.Some? {
      var n := e.setoranShubuh.value as real;
      assert n / 20.0 * 100.0 == n * 5.0;
    }
  }

  /** A santri missing from the residence list has domicile "N/A" and is never eligible. */
  lemma UnlistedSantriNotEligible(e: TahfidzEntry, mondok: Option<seq<Santri>>)
    requires mondok.None? || forall j :: 0 <= j < |mondok.value| ==> mondok.value[j].namaLengkap != e.namaLengkap
    ensures !MakassarEligible(e, mondok)
  {
    assert Lower(NotAvailable)[0] == 'n';
  }

  /** Line 24: `tahfidz_bulan_ini?.filter(...)`, undefined when the list is. */
  function MakassarSantriIzin(tahfidz: Option<seq<TahfidzEntry>>, mondok: Option<seq<Santri>>): (r: Option<seq<TahfidzEntry>>)
    ensures r.None? <==> tahfidz.None?
    ensures r.Some? ==> |r.value| <= |tahfidz.value| && multiset(r.value) <= multiset(tahfidz.value)
    ensures r.Some? ==> forall j :: 0 <= j < |r.value| ==> MakassarEligible(r.value[j], mondok)
    ensures r.Some? ==> forall j :: 0 <= j < |tahfidz.value| && MakassarEligible(tahfidz.value[j], mondok) ==>
                          tahfidz.value[j] in r.value
  {
    if tahfidz.None? then None
    else Some(Filter(tahfidz.value, (e: TahfidzEntry) => MakassarEligible(e, mondok)))
  }

  /** The filter keeps the order of the month's list. */
  lemma MakassarSantriIzinOrder(a: seq<TahfidzEntry>, b: seq<TahfidzEntry>, mondok: Option<seq<Santri>>)
    ensures MakassarSantriIzin(Some(a + b), mondok).value ==
            MakassarSantriIzin(Some(a), mondok).value + MakassarSantriIzin(Some(b), mondok).value
  {
    FilterConcat(a, b, (e: TahfidzEntry) => MakassarEligible(e, mondok));
  }

  /** Line 158: the Makassar section appears only with at least one eligible santri. */
  predicate MakassarSectionShown(tahfidz: Option<seq<TahfidzEntry>>, mondok: Option<seq<Santri>>)
  {
    SectionRows(MakassarSantriIzin(tahfidz, mondok)).Some?
  }

  lemma MakassarSectionNeedsEligibleSantri(tahfidz: Option<seq<TahfidzEntry>>, mondok: Option<seq<Santri>>)
    ensures MakassarSectionShown(tahfidz, mondok) <==>
              tahfidz.Some? && exists j :: 0 <= j < |tahfidz.value| && MakassarEligible(tahfidz.value[j], mondok)
  {
    var r := MakassarSantriIzin(tahfidz, mondok);
    if r.Some? && |r.value| > 0 {
      assert r.value[0] in tahfidz.value;
    }
  }

  /** Line 83: the first overall-progress row with the santri's exact name; the
    * block is left out (line 117) when there is none. */
  function OverallProgress(progres: seq<ProgressEntry>, nama: string): (p: Option<ProgressEntry>)
    ensures p.None? <==> forall j :: 0 <= j < |progres| ==> progres[j].namaLengkap != nama
    ensures forall i :: 0 <= i < |progres| && progres[i].namaLengkap == nama &&
                        (forall j :: 0 <= j < i ==> progres[j].namaLengkap != nama) ==>
              p == Some(progres[i])
  {
    Find(progres, (e: ProgressEntry) => e.namaLengkap == nama)
  }

  /** Lines 194-198: the third card (index 2) always uses one fixed photo; the
    * others use the photo of the first santri in residence named like the musyrif,
    * if that santri has one; otherwise there is no photo. */
  function MusyrifPhoto(index: nat, m: Musyrif, mondok: Option<seq<Santri>>): (photo: Option<string>)
    ensures index == 2 ==> photo == Some(FixedMusyrifPhoto)
    ensures index != 2 && RecordNamed(mondok, m.namaMusyrif).None? ==> photo.None?
    ensures index != 2 && RecordNamed(mondok, m.namaMusyrif).Some? ==>
              photo == (if RecordNamed(mondok, m.namaMusyrif).value.foto == "" then None
                        else Some(PanelPhotoUrl(RecordNamed(mondok, m.namaMusyrif).value.foto)))
  {
    if index == 2 then Some(FixedMusyrifPhoto)
    else match RecordNamed(mondok, m.namaMusyrif)
      case Some(s) => if s.foto != "" then Some(PanelPhotoUrl(s.foto)) else None
      case None => None
  }

  datatype MusyrifCard = MusyrifCard(musyrif: Musyrif, photo: Option<string>)

  /** Line 192: `kinerja_musyrif?.slice(0, 4).map(...)`: cards for the first four
    * musyrif; None (the placeholder) when the list is absent. */
  function MusyrifCards(kinerja: Option<seq<Musyrif>>, mondok: Option<seq<Santri>>): (cards: Option<seq<MusyrifCard>>)
    ensures cards.None? <==> kinerja.None?
    ensures cards.Some? ==> |cards.value| == Min(MusyrifLimit, |kinerja.value|)
    ensures cards.Some? ==> forall i :: 0 <= i < |cards.value| ==>
              cards.value[i].musyrif == kinerja.value[i] &&
              cards.value[i].photo == MusyrifPhoto(i, kinerja.value[i], mondok)
  {
    if kinerja.None? then None
    else
      var shown := kinerja.value[..Min(MusyrifLimit, |kinerja.value|)];
      Some(seq(|shown|, i requires 0 <= i < |shown| => MusyrifCard(shown[i], MusyrifPhoto(i, shown[i], mondok))))
  }

  /** Lines 264-317: the header counts `total_proyek || 0`, and the cards come from
    * `daftar_proyek`. */
  function ProjectSection(totalProyek: Option<int>, daftar: Option<seq<Project>>): (section: (int, Option<seq<ProjectCard>>))
    ensures section.0 == 0 <==> totalProyek.None? || totalProyek.value == 0
    ensures section.0 != 0 ==> totalProyek == Some(section.0)
    ensures section.1.None? <==> daftar.None?
    ensures section.1.Some? ==> |section.1.value| == |daftar.value|
    ensures section.1.Some? ==> forall i :: 0 <= i < |section.1.value| ==> section.1.value[i].project == daftar.value[i]
  {
    (NumberOrZero(totalProyek), ProjectCards(daftar))
  }

  /** At most four musyrif cards are drawn, the first four of the list, in order. */
  lemma MusyrifCardsArePrefix(kinerja: seq<Musyrif>, mondok: Option<seq<Santri>>)
    ensures |MusyrifCards(Some(kinerja), mondok).value| <= MusyrifLimit
    ensures |kinerja| <= MusyrifLimit ==> |MusyrifCards(Some(kinerja), mondok).value| == |kinerja|
    ensures forall i :: 0 <= i < |MusyrifCards(Some(kinerja), mondok).value| ==>
              MusyrifCards(Some(kinerja), mondok).value[i].musyrif == kinerja[i]
  {
  }
}
