/** JSON values as the proxy handles them, and the foreign library functions it calls. */
module JsonValues {
  import opened Wrappers

  /** A decoded JSON value. Objects keep their members in insertion order, as Python dicts do.
      Numbers are reals; float rounding is not modelled. */
  datatype Json =
    | JNull
    | JBool(b: bool)
    | JNum(n: real)
    | JStr(s: string)
    | JArr(items: seq<Json>)
    | JObj(members: seq<(string, Json)>)

  /** `{}`. */
  const EmptyObject: Json := JObj([])

  /** A Python value that is a string or None, as JSON. */
  function StrOrNull(s: Option<string>): Json {
    match s
    case Some(v) => JStr(v)
    case None => JNull
  }

  /** The library functions the engine calls but does not define: the tokenizer's
      `len(encode(text))`, `json.dumps` and `json.loads` (None when it raises). They are
      parameters because their implementations are not part of this model. */
  datatype Library = Library(
    countTokens: string -> nat,
    dumps: Json -> string,
    loads: string -> Option<Json>)
}
