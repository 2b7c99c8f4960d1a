/** What the panels display for optional values: the `value || fallback` idiom
  * (`null`, `undefined`, `""` and `0` all fall back), optional sections, and the
  * badge colours. */
module Display {
  import opened Seqs

  /** The badge colour classes the status mappers choose from. */
  const GreenBadge := "bg-green-100 text-green-800"
  const YellowBadge := "bg-yellow-100 text-yellow-800"
  const RedBadge := "bg-red-100 text-red-800"
  const BlueBadge := "bg-blue-100 text-blue-800"
  const GrayBadge := "bg-gray-100 text-gray-800"

  function TextOr(v: Option<string>, fallback: string): (r: string)
    ensures v.None? || v.value == "" ==> r == fallback
    ensures v.Some? && v.value != "" ==> r == v.value
  {
    if v.Some? && v.value != "" then v.value else fallback
  }

  /** `count || 0` for a numeric field that may be missing. */
  function NumberOrZero(v: Option<int>): (r: int)
    ensures r == 0 <==> v.None? || v.value == 0
    ensures r != 0 ==> v == Some(r)
  {
    if v.Some? then v.value else 0
  }

  /** `list?.length || 0`. */
  function LengthOrZero<T>(v: Option<seq<T>>): (r: nat)
    ensures v.None? ==> r == 0
    ensures v.Some? ==> r == |v.value|
  {
    if v.Some? then |v.value| else 0
  }

  /** `value && <element>`: an optional text renders only when it is non-empty. */
  function ShownText(v: string): (r: Option<string>)
    ensures r.None? <==> v == ""
    ensures r.Some? ==> r.value == v
  {
    if v == "" then None else Some(v)
  }

  /** `list && list.length > 0 ? <rows> : <empty notice>`: the rows of a list section,
    * or None for the section's empty notice. */
  function SectionRows<T>(v: Option<seq<T>>): (rows: Option<seq<T>>)
    ensures rows.None? <==> v.None? || v.value == []
    ensures rows.Some? ==> rows == v && |rows.value| > 0
  {
    if v.Some? && |v.value| > 0 then v else None
  }
}
