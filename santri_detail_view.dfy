/** The profile of one santri, opened from either directory: the detail resource
  * (keyed by the santri's id), the two lookup tables, and the sections of the
  * detail payload, each shown only when it has something to show. */
module SantriDetailView {
  import opened Seqs
  import opened Text
  import opened Precedence
  import opened Endpoints
  import opened Display
  import opened SantriRecords

  const DetailPath := "santri/detail/"
  const NotFoundMessage := "Data detail santri tidak ditemukan."
  const JuzSeparator := ", "

  /** The detail resource of a santri. */
  function DetailUrl(santriId: string): (url: string)
    ensures StartsWith(url, ApiRoot + DetailPath) && url[|ApiRoot + DetailPath|..] == santriId
  {
    var url := ApiUrl(DetailPath + santriId);
    assert url == ApiRoot + DetailPath + santriId;
    assert url[..|ApiRoot + DetailPath|] == ApiRoot + DetailPath;
    url
  }

  /** The detail URL names its santri: each id is its own resource, and reopening
    * the view for another santri retargets the hook. */
  lemma DetailUrlDeterminesSantri(a: string, b: string)
    requires DetailUrl(a) == DetailUrl(b)
    ensures a == b
  {
  }

  /** One entry of `progres_tahfidz`; `daftar_juz_terhafal` may be absent. */
  datatype ProgresTahfidz = ProgresTahfidz(totalJuzHafalan: string, daftarJuzTerhafal: Option<string>)

  datatype Izin = Izin(keperluanIzin: string, waktuIzin: string, selesaiIzin: string, statusIzin: string)

  /** `perizinan`: its statistics and the recent permissions, which may be absent. */
  datatype Perizinan = Perizinan(totalIzin: int, izinAktif: int, bulanIni: int, riwayatTerakhir: Option<seq<Izin>>)

  datatype Presensi = Presensi(onTime: int, telat: int, pertamax: int)

  datatype Pelanggaran = Pelanggaran(keterangan: string)

  datatype Kegiatan = Kegiatan(targetDaily: string, status: string, linkBelajar: string, kendala: string)

  datatype HafalanEntry = HafalanEntry(juzHafalan: string, status: string)

  /** `hafalan`: this year's memorisation reports, which may be absent. */
  datatype Hafalan = Hafalan(tahunIni: Option<seq<HafalanEntry>>)

  /** `santriDetail.data`: every part of the payload may be missing. */
  datatype DetailData = DetailData(
    profile: Option<Santri>,
    hafalan: Option<Hafalan>,
    progresTahfidz: Option<seq<ProgresTahfidz>>,
    kegiatanProduktif: Option<seq<Kegiatan>>,
    statistikPresensi: Option<Presensi>,
    pelanggaran: Option<seq<Pelanggaran>>,
    perizinan: Option<Perizinan>)

  datatype DetailResponse = DetailResponse(data: Option<DetailData>)

  /** The view's resources, in the order its error checks run. */
  datatype DetailResource = DetailRecord | DetailKonsentrasi | DetailAngkatan

  /** Lines 32-39: the loading/error chain, then the fixed not-found message
    * (without a retry) when the payload has no profile, else the profile. */
  function DetailScreen(detail: ResourceView, konsentrasi: ResourceView, angkatan: ResourceView,
                        payload: Option<DetailResponse>): (v: Screen<DetailResource>)
    ensures v.Spinner? <==> detail.loading || konsentrasi.loading || angkatan.loading
    ensures !(detail.loading || konsentrasi.loading || angkatan.loading) ==>
              v == if Failed(detail) then ErrorView(detail.error.value, Some(DetailRecord))
                   else if Failed(konsentrasi) then ErrorView(konsentrasi.error.value, Some(DetailKonsentrasi))
                   else if Failed(angkatan) then ErrorView(angkatan.error.value, Some(DetailAngkatan))
                   else if ProfileOf(payload).None? then NotFound(NotFoundMessage)
                   else Content
    ensures v.Content? <==> Settled(detail) && Settled(konsentrasi) && Settled(angkatan) && ProfileOf(payload).Some?
  {
    var rs := [detail, konsentrasi, angkatan];
    var handles := [DetailRecord, DetailKonsentrasi, DetailAngkatan];
    assert rs[0] == detail && rs[1] == konsentrasi && rs[2] == angkatan;
    match Merge(rs)
    case Spin => Spinner
    case ShowError(i, m) => ErrorView(m, Some(handles[i]))
    case AllReady => if ProfileOf(payload).None? then NotFound(NotFoundMessage) else Content
  }

  /** `santriDetail?.data?.profile`. */
  function ProfileOf(payload: Option<DetailResponse>): (p: Option<Santri>)
    ensures p.Some? ==> payload.Some? && payload.value.data.Some? && payload.value.data.value.profile == p
    ensures payload.Some? && payload.value.data.Some? ==> p == payload.value.data.value.profile
  {
    if payload.Some? && payload.value.data.Some? then payload.value.data.value.profile else None
  }

  /** What the profile page shows of each section: the rows, or None for the
    * section's "no data" notice. */
  datatype Sections = Sections(
    progress: Option<seq<ProgresTahfidz>>,
    perizinan: Option<seq<Izin>>,
    presensi: Option<Presensi>,
    pelanggaran: Option<seq<Pelanggaran>>,
    kegiatan: Option<seq<Kegiatan>>,
    hafalan: Option<seq<HafalanEntry>>)

  /** Lines 104, 147, 169, 185, 210 and 239: list sections render only when
    * non-empty; perizinan needs a non-empty `riwayat_terakhir` and hafalan a
    * non-empty `tahun_ini`; the attendance statistics render whenever present. */
  function SectionsOf(d: DetailData): (s: Sections)
    ensures s.progress == SectionRows(d.progresTahfidz)
    ensures s.perizinan.Some? <==>
              d.perizinan.Some? && d.perizinan.value.riwayatTerakhir.Some? && |d.perizinan.value.riwayatTerakhir.value| > 0
    ensures s.perizinan.Some? ==> s.perizinan == d.perizinan.value.riwayatTerakhir
    ensures s.presensi == d.statistikPresensi
    ensures s.pelanggaran == SectionRows(d.pelanggaran)
    ensures s.kegiatan == SectionRows(d.kegiatanProduktif)
    ensures s.hafalan.Some? <==> d.hafalan.Some? && d.hafalan.value.tahunIni.Some? && |d.hafalan.value.tahunIni.value| > 0
    ensures s.hafalan.Some? ==> s.hafalan == d.hafalan.value.tahunIni
  {
    Sections(
      SectionRows(d.progresTahfidz),
      SectionRows(if d.perizinan.Some? then d.perizinan.value.riwayatTerakhir else None),
      d.statistikPresensi,
      SectionRows(d.pelanggaran),
      SectionRows(d.kegiatanProduktif),
      SectionRows(if d.hafalan.Some? then d.hafalan.value.tahunIni else None))
  }

  /** Line 122: `daftar_juz_terhafal?.split(', ')`, the chips of one progress entry;
    * an absent list renders no chips. */
  function JuzChips(p: ProgresTahfidz): (chips: seq<string>)
    ensures p.daftarJuzTerhafal.None? ==> chips == []
    ensures p.daftarJuzTerhafal.Some? ==> |chips| >= 1
    ensures forall k :: 0 <= k < |chips| ==> !Contains(chips[k], JuzSeparator)
  {
    if p.daftarJuzTerhafal.Some? then Split(p.daftarJuzTerhafal.value, JuzSeparator) else []
  }

  /** The chips are the list cut at its separators: joined back they are the list. */
  lemma JuzChipsRestoreList(p: ProgresTahfidz)
    requires p.daftarJuzTerhafal.Some?
    ensures Join(JuzChips(p), JuzSeparator) == p.daftarJuzTerhafal.value
  {
    JoinSplit(p.daftarJuzTerhafal.value, JuzSeparator);
  }

  /** A present but empty list still renders one blank chip, since only `null` and
    * `undefined` are skipped by `?.`. */
  lemma EmptyJuzListGivesOneBlankChip(p: ProgresTahfidz)
    requires p.daftarJuzTerhafal == Some("")
    ensures JuzChips(p) == [""]
  {
    assert IndexOf("", JuzSeparator).None?;
  }

  /** The profile card: the photo (only with a `foto_santri`), and the resolved
    * concentration and cohort names. */
  datatype ProfileCard = ProfileCard(photo: Option<string>, konsentrasiName: string, angkatanName: string)

  function ProfileCardOf(profile: Santri, kons: Option<seq<Konsentrasi>>, angk: Option<seq<Angkatan>>): (c: ProfileCard)
    ensures c.photo.Some? <==> profile.foto != ""
    ensures c.photo.Some? ==> StartsWith(c.photo.value, UploadsBase) && c.photo.value[|UploadsBase|..] == profile.foto
    ensures kons.None? || (forall j :: 0 <= j < |kons.value| ==> kons.value[j].idKonsentrasi != profile.konsentrasi) ==>
              c.konsentrasiName == profile.konsentrasi
    ensures kons.Some? ==>
              forall i :: 0 <= i < |kons.value| && kons.value[i].idKonsentrasi == profile.konsentrasi &&
                          (forall j :: 0 <= j < i ==> kons.value[j].idKonsentrasi != profile.konsentrasi) ==>
                c.konsentrasiName == kons.value[i].namaKonsentrasi
    ensures angk.None? || (forall j :: 0 <= j < |angk.value| ==> angk.value[j].idAngkatan != profile.angkatan) ==>
              c.angkatanName == profile.angkatan
    ensures angk.Some? ==>
              forall i :: 0 <= i < |angk.value| && angk.value[i].idAngkatan == profile.angkatan &&
                          (forall j :: 0 <= j < i ==> angk.value[j].idAngkatan != profile.angkatan) ==>
                c.angkatanName == angk.value[i].angkatan
  {
    ProfileCard(CardPhoto(profile.foto), KonsentrasiName(kons, profile.konsentrasi), AngkatanName(angk, profile.angkatan))
  }
}
