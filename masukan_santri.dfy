/** The santri feedback table (masukan santri): one resource, a row per
  * complaint with its target, status colour and response. */
module MasukanSantri {
  import opened Seqs
  import opened Precedence
  import opened Endpoints
  import opened Display

  const InventhumUrl := ApiUrl("inventhum")
  const BelumDiterima := "belum diterima"
  const Dipending := "dipending"
  const Diterima := "diterima"
  const NoTarget := "N/A"
  const NoResponse := "Belum ada tanggapan"

  /** A row of `keluhan_santri`. `bidang_tujuan` may be null and `tanggapan` may be absent. */
  datatype Complaint = Complaint(idMasukan: string, createdAt: string, masukan: string, status: string,
                                 namaLengkapSantri: string, bidangTujuan: Option<string>, tanggapan: Option<string>)

  /** Lines 44-52: the status colour, an exact match. */
  function ComplaintStatusClass(status: string): (cls: string)
    ensures status == BelumDiterima ==> cls == RedBadge
    ensures status == Dipending ==> cls == YellowBadge
    ensures status == Diterima ==> cls == BlueBadge
    ensures status !in {BelumDiterima, Dipending, Diterima} ==> cls == GrayBadge
  {
    if status == BelumDiterima then RedBadge
    else if status == Dipending then YellowBadge
    else if status == Diterima then BlueBadge
    else GrayBadge
  }

  /** The four colours differ, so the colour tells the status apart, and every
    * unknown status (a differently cased one included) is gray. */
  lemma ComplaintStatusClassIdentifiesStatus(status: string)
    ensures ComplaintStatusClass(status) == RedBadge <==> status == BelumDiterima
    ensures ComplaintStatusClass(status) == YellowBadge <==> status == Dipending
    ensures ComplaintStatusClass(status) == BlueBadge <==> status == Diterima
    ensures ComplaintStatusClass(status) == GrayBadge <==> status !in {BelumDiterima, Dipending, Diterima}
  {
    assert RedBadge[3] == 'r' && YellowBadge[3] == 'y' && BlueBadge[3] == 'b' && GrayBadge[3] == 'g';
  }

  /** What a row shows besides the date and the (verbatim) complaint text. */
  datatype Row = Row(tujuan: string, statusClass: string, tanggapan: string)

  /** Lines 42 and 56: a missing or empty target reads "N/A", a missing or empty
    * response reads "Belum ada tanggapan". */
  function RowOf(c: Complaint): (r: Row)
    ensures r.tujuan == TextOr(c.bidangTujuan, NoTarget)
    ensures c.bidangTujuan.None? || c.bidangTujuan == Some("") ==> r.tujuan == NoTarget
    ensures r.tanggapan == TextOr(c.tanggapan, NoResponse)
    ensures c.tanggapan.None? || c.tanggapan == Some("") ==> r.tanggapan == NoResponse
    ensures r.statusClass == ComplaintStatusClass(c.status)
  {
    Row(TextOr(c.bidangTujuan, NoTarget), ComplaintStatusClass(c.status), TextOr(c.tanggapan, NoResponse))
  }

  /** The table: the header count (`length || 0`), and a row per complaint, or
    * None (the "Belum ada masukan santri" row) only when the list is absent. */
  datatype Table = Table(count: nat, rows: Option<seq<Row>>)

  function TableOf(keluhan: Option<seq<Complaint>>): (t: Table)
    ensures t.count == LengthOrZero(keluhan)
    ensures t.rows.None? <==> keluhan.None?
    ensures t.rows.Some? ==> |t.rows.value| == t.count &&
                             forall i :: 0 <= i < t.count ==> t.rows.value[i] == RowOf(keluhan.value[i])
  {
    if keluhan.None? then Table(0, None)
    else
      var cs := keluhan.value;
      Table(|cs|, Some(seq(|cs|, i requires 0 <= i < |cs| => RowOf(cs[i]))))
  }

  /** An empty list draws an empty table body, not the placeholder row. */
  lemma EmptyListHasNoPlaceholder()
    ensures TableOf(Some([])) == Table(0, Some([]))
    ensures TableOf(None) == Table(0, None)
  {
  }

  /** The panel's one resource. */
  datatype MasukanResource = Inventhum

  /** Lines 12-13: loading first, then the error with its retry, then the table. */
  function MasukanScreen(inventhum: ResourceView): (v: Screen<MasukanResource>)
    ensures v.Spinner? <==> inventhum.loading
    ensures v.ErrorView? <==> !inventhum.loading && Failed(inventhum)
    ensures v.ErrorView? ==> Some(v.message) == inventhum.error && v.retry == Some(Inventhum)
    ensures v.Content? <==> Settled(inventhum)
    ensures v.Spinner? || v.ErrorView? || v.Content?
  {
    var rs := [inventhum];
    assert rs[0] == inventhum;
    match Merge(rs)
    case Spin => Spinner
    case ShowError(_, m) => ErrorView(m, Some(Inventhum))
    case AllReady => Content
  }
}
