/** The dashboard: one resource; the attendance table's status icons with their
  * tooltips, the daily-report status colours, counters that fall back to 0,
  * the memorisation sections, and the active projects. */
module Dashboard {
  import opened Seqs
  import opened Text
  import opened Precedence
  import opened Endpoints
  import opened Display
  import opened Projects

  const DashboardUrl := ApiUrl("dashboard")
  const NoTime := "00:00:00"
  const NoTimeText := "Tidak ada data"

  /** The four icons of the attendance table. */
  datatype AttendanceKind = OnTime | Telat | Pertamax | Absen

  /** The lower-case status text each kind is recognised by. */
  function KindKey(k: AttendanceKind): string
  {
    match k
    case OnTime => "on-time"
    case Telat => "telat"
    case Pertamax => "pertamax"
    case Absen => "absen"
  }

  /** Line 15: the status is lowercased and matched; `absen` and every unknown
    * status fall to the same absent icon. */
  function AttendanceKindOf(status: string): (k: AttendanceKind)
    ensures k == OnTime <==> Lower(status) == "on-time"
    ensures k == Telat <==> Lower(status) == "telat"
    ensures k == Pertamax <==> Lower(status) == "pertamax"
    ensures k == Absen <==> Lower(status) != "on-time" && Lower(status) != "telat" && Lower(status) != "pertamax"
  {
    var s := Lower(status);
    if s == "on-time" then OnTime
    else if s == "telat" then Telat
    else if s == "pertamax" then Pertamax
    else Absen
  }

  /** Each kind is recognised by its own key, so the mapping loses no kind. */
  lemma KindKeyRoundTrip(k: AttendanceKind)
    ensures AttendanceKindOf(KindKey(k)) == k
  {
    match k
    case OnTime => assert Lower("on-time") == "on-time";
    case Telat => assert Lower("telat") == "telat";
    case Pertamax => assert Lower("pertamax") == "pertamax";
    case Absen => assert Lower("absen") == "absen";
  }

  /** The match ignores letter case. */
  lemma AttendanceIgnoresCase(status: string)
    ensures AttendanceKindOf(Lower(status)) == AttendanceKindOf(status)
  {
    LowerIdempotent(status);
  }

  /** Line 14: the time `00:00:00` means no record. */
  function TimeInfo(time: string): (t: string)
    ensures time == NoTime ==> t == NoTimeText
    ensures time != NoTime ==> t == time
  {
    if time != NoTime then time else NoTimeText
  }

  /** The tooltip label of a kind. */
  function KindLabel(k: AttendanceKind): string
  {
    match k
    case OnTime => "On Time"
    case Telat => "Telat"
    case Pertamax => "Pertamax"
    case Absen => "Absen"
  }

  /** Lines 13-46: the cell's icon and tooltip. */
  datatype AttendanceCell = AttendanceCell(kind: AttendanceKind, title: string)

  function AttendanceCellOf(status: string, time: string): (c: AttendanceCell)
    ensures c.kind == AttendanceKindOf(status)
    ensures c.kind == Absen ==> c.title == "Absen"
    ensures c.kind != Absen ==> c.title == KindLabel(c.kind) + ": " + TimeInfo(time)
  {
    var k := AttendanceKindOf(status);
    AttendanceCell(k, if k == Absen then "Absen" else KindLabel(k) + ": " + TimeInfo(time))
  }

  /** The absent tooltip ignores the time; the others end with the time shown. */
  lemma AttendanceTitleShowsTime(status: string, time: string, other: string)
    ensures AttendanceKindOf(status) == Absen ==>
              AttendanceCellOf(status, time) == AttendanceCellOf(status, other)
    ensures AttendanceKindOf(status) != Absen ==>
              var title := AttendanceCellOf(status, time).title;
              var head := KindLabel(AttendanceKindOf(status)) + ": ";
              StartsWith(title, head) && title[|head|..] == TimeInfo(time)
  {
    if AttendanceKindOf(status) != Absen {
      var title := AttendanceCellOf(status, time).title;
      var head := KindLabel(AttendanceKindOf(status)) + ": ";
      assert title == head + TimeInfo(time);
      assert title[..|head|] == head;
    }
  }

  /** A row of `presensi_harian`: the five sessions, each a status and a time. */
  datatype Session = Session(status: string, time: string)
  datatype PresensiHarian = PresensiHarian(namaSantri: string, shubuh: Session, waktuProduktif: Session,
                                           dzuhur: Session, ashar: Session, maghribIsya: Session)

  /** The five sessions of a row, in the table's column order. */
  function Sessions(p: PresensiHarian): seq<Session>
  {
    [p.shubuh, p.waktuProduktif, p.dzuhur, p.ashar, p.maghribIsya]
  }

  /** Lines 391-399: the five cells of a row, in column order. The cell of a
    * session is absent exactly when its lowered status is none of the three
    * recognised ones; any other cell names its kind and shows the session's time. */
  function AttendanceRow(p: PresensiHarian): (cells: seq<AttendanceCell>)
    ensures |cells| == |Sessions(p)| == 5
    ensures forall k :: 0 <= k < |cells| ==>
              (cells[k].kind == Absen <==> Lower(Sessions(p)[k].status) !in {"on-time", "telat", "pertamax"})
    ensures forall k :: 0 <= k < |cells| && cells[k].kind != Absen ==>
              Lower(Sessions(p)[k].status) == KindKey(cells[k].kind) &&
              cells[k].title == KindLabel(cells[k].kind) + ": " + TimeInfo(Sessions(p)[k].time)
    ensures forall k :: 0 <= k < |cells| && cells[k].kind == Absen ==> cells[k].title == "Absen"
  {
    var ss := Sessions(p);
    seq(5, k requires 0 <= k < 5 => AttendanceCellOf(ss[k].status, ss[k].time))
  }

  const Selesai := "Selesai"
  const BelumSelesai := "Belum Selesai"
  const TidakSelesai := "Tidak Selesai"
  const PendingBesok := "Pending Besok"

  /** Lines 48-61: `getStatusClass`, an exact (case-sensitive) match on the report status. */
  function StatusClass(status: string): (cls: string)
    ensures status == Selesai ==> cls == GreenBadge
    ensures status == BelumSelesai ==> cls == YellowBadge
    ensures status == TidakSelesai ==> cls == RedBadge
    ensures status == PendingBesok ==> cls == BlueBadge
    ensures status !in {Selesai, BelumSelesai, TidakSelesai, PendingBesok} ==> cls == GrayBadge
  {
    if status == Selesai then GreenBadge
    else if status == BelumSelesai then YellowBadge
    else if status == TidakSelesai then RedBadge
    else if status == PendingBesok then BlueBadge
    else GrayBadge
  }

  /** The five colours differ, so each named status has its own, and only an
    * unknown status (a differently cased one included) is gray. */
  lemma StatusClassIdentifiesStatus(status: string)
    ensures StatusClass(status) == GreenBadge <==> status == Selesai
    ensures StatusClass(status) == YellowBadge <==> status == BelumSelesai
    ensures StatusClass(status) == RedBadge <==> status == TidakSelesai
    ensures StatusClass(status) == BlueBadge <==> status == PendingBesok
    ensures StatusClass(status) == GrayBadge <==> status !in {Selesai, BelumSelesai, TidakSelesai, PendingBesok}
  {
    assert GreenBadge[3] == 'g' && YellowBadge[3] == 'y' && RedBadge[3] == 'r' && BlueBadge[3] == 'b';
    assert GrayBadge[3] == 'g' && GrayBadge[4] == 'r' && GreenBadge[4] == 'r' && GreenBadge[5] == 'e' && GrayBadge[5] == 'a';
  }

  /** A counter pair (`aktif` of `total`) in `statistik_utama`; any part may be missing. */
  datatype CountPair = CountPair(aktif: Option<int>, total: Option<int>)

  /** Lines 116-184: each shown number falls back to 0 when missing (or 0). */
  function CounterText(pair: Option<CountPair>): (shown: (int, int))
    ensures shown.0 == 0 <==> pair.None? || pair.value.aktif.None? || pair.value.aktif.value == 0
    ensures shown.1 == 0 <==> pair.None? || pair.value.total.None? || pair.value.total.value == 0
    ensures shown.0 != 0 ==> pair.Some? && pair.value.aktif == Some(shown.0)
    ensures shown.1 != 0 ==> pair.Some? && pair.value.total == Some(shown.1)
  {
    if pair.None? then (0, 0) else (NumberOrZero(pair.value.aktif), NumberOrZero(pair.value.total))
  }

  /** A santri in the memorisation sections. */
  datatype SetoranSantri = SetoranSantri(nama: string, foto: string)

  /** Lines 201-250: the two counts (`length || 0`) and the two avatar sections,
    * each drawn only when its list is non-empty. */
  datatype HafalanPanel = HafalanPanel(sudahCount: nat, belumCount: nat,
                                       sudah: Option<seq<SetoranSantri>>, belum: Option<seq<SetoranSantri>>)

  function HafalanPanelOf(setoranHariIni: Option<seq<SetoranSantri>>, belumSetor: Option<seq<SetoranSantri>>): (h: HafalanPanel)
    ensures h.sudahCount == LengthOrZero(setoranHariIni) && h.belumCount == LengthOrZero(belumSetor)
    ensures h.sudah == SectionRows(setoranHariIni) && h.belum == SectionRows(belumSetor)
    ensures h.sudah.Some? ==> |h.sudah.value| == h.sudahCount
    ensures h.belum.Some? ==> |h.belum.value| == h.belumCount
  {
    HafalanPanel(LengthOrZero(setoranHariIni), LengthOrZero(belumSetor), SectionRows(setoranHariIni), SectionRows(belumSetor))
  }

  /** Lines 224 and 244: an avatar's tooltip names the santri, or says no name is available. */
  function AvatarTitle(nama: string): (t: string)
    ensures nama != "" ==> t == nama
    ensures nama == "" ==> t == "Nama tidak tersedia"
  {
    TextOr(Some(nama), "Nama tidak tersedia")
  }

  /** Lines 328-368: the header counts `proyek?.length || 0`, and the cards come
    * from the same list. */
  function ProjectSection(proyek: Option<seq<Project>>): (section: (nat, Option<seq<ProjectCard>>))
    ensures section.0 == LengthOrZero(proyek)
    ensures section.1 == ProjectCards(proyek)
    ensures section.1.Some? ==> |section.1.value| == section.0
  {
    (LengthOrZero(proyek), ProjectCards(proyek))
  }

  /** The dashboard's one resource. */
  datatype DashboardResource = DashboardData

  /** Lines 66-67: loading first, then the error with its retry, then the content. */
  function DashboardScreen(dashboard: ResourceView): (v: Screen<DashboardResource>)
    ensures v.Spinner? <==> dashboard.loading
    ensures v.ErrorView? <==> !dashboard.loading && Failed(dashboard)
    ensures v.ErrorView? ==> Some(v.message) == dashboard.error && v.retry == Some(DashboardData)
    ensures v.Content? <==> Settled(dashboard)
    ensures v.Spinner? || v.ErrorView? || v.Content?
  {
    var rs := [dashboard];
    assert rs[0] == dashboard;
    match Merge(rs)
    case Spin => Spinner
    case ShowError(_, m) => ErrorView(m, Some(DashboardData))
    case AllReady => Content
  }

  /** Line 112: the santri card asks the shell to open the santri tab. Without a
    * handler the unguarded call throws, so no tab is requested and nothing changes. */
  function SantriCardClick(hasTabHandler: bool): (request: Option<string>)
    ensures hasTabHandler <==> request == Some("santri")
    ensures !hasTabHandler ==> request.None?
  {
    if hasTabHandler then Some("santri") else None
  }
}
