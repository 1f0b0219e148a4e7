/**
 * What the two admin pages (ingredients and recipes) share: the values
 * their form fields hold, JavaScript truthiness of those values, the
 * numbers `parseInt`/`parseFloat` read from them, and the normalisation
 * of a fetched list.
 */
module AdminForms {
  import opened Wrappers

  /**
   * A value held by a form field or read from stored JSON: text typed into
   * an input, a number (carried by the text JavaScript shows for it, so
   * `0` and `-0` are both `Number("0")`), or `null`.
   */
  datatype Value = Text(s: string) | Number(shown: string) | Null

  /** JavaScript truthiness: the empty string, the number 0 and null are falsy. */
  predicate Truthy(v: Value)
  {
    match v
    case Text(s) => s != ""
    case Number(shown) => shown != "0"
    case Null => false
  }

  /** The text a template literal `${v}` produces for the value. */
  function Shown(v: Value): (t: string)
    ensures v.Null? ==> t == "null"
  {
    match v
    case Text(s) => s
    case Number(shown) => shown
    case Null => "null"
  }

  /**
   * A number sent to the server: a literal 0, or the number `parseInt` /
   * `parseFloat` reads from a field. What number the parse yields is not
   * modelled, only which field it was read from.
   */
  datatype NumberOut = Zero | IntOf(source: Value) | FloatOf(source: Value)

  /** `v ? parseInt(v) : null`, the coercion of an optional integer field. */
  function IntOrNull(v: Value): (r: Option<NumberOut>)
    ensures r.None? <==> !Truthy(v)
    ensures r.Some? ==> r.value.IntOf? && r.value.source == v
  {
    if Truthy(v) then Some(IntOf(v)) else None
  }

  /** `v ? parseFloat(v) : 0`, the coercion of a macro-nutrient field. */
  function FloatOrZero(v: Value): (r: NumberOut)
    ensures r.Zero? <==> !Truthy(v)
    ensures !r.Zero? ==> r.FloatOf? && r.source == v
  {
    if Truthy(v) then FloatOf(v) else Zero
  }

  /** `v || fallback`: a truthy value is kept, any other gives way to the fallback text. */
  function OrElse(v: Value, fallback: string): (r: Value)
    ensures Truthy(v) ==> r == v
    ensures !Truthy(v) ==> r == Text(fallback)
    ensures Truthy(r) || fallback == ""
  {
    if Truthy(v) then v else Text(fallback)
  }

  /** A toast notification. */
  datatype Toast = ToastSuccess(message: string) | ToastError(message: string)

  /** What a fetch of a list gives back: an array, some other JSON value, or an error. */
  datatype Fetched<T> = ArrayOf(elems: seq<T>) | NotArray | FetchFailed

  /** `Array.isArray(data) ? data : []`, with `[]` also after an error. */
  function ListOrEmpty<T>(f: Fetched<T>): (r: seq<T>)
    ensures f.ArrayOf? ==> r == f.elems
    ensures !f.ArrayOf? ==> r == []
  {
    if f.ArrayOf? then f.elems else []
  }
}
