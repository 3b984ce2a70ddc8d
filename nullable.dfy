/** Values that may be missing: JavaScript's `null` and `undefined` both read as None. */
module Nullable {

  datatype Option<T> = None | Some(value: T)

  /** `text || null`: the empty string becomes null, any other text is kept. */
  function NullIfEmpty(s: string): (r: Option<string>)
    ensures r.None? <==> s == ""
    ensures r.Some? ==> r.value == s
  {
    if s == "" then None else Some(s)
  }

}
