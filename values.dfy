/** Python values the todo service passes around: nullable strings and their truthiness. */
module Values {

  /** A value that may be Python's None. */
  datatype Option<+T> = None | Some(value: T)

  /** Python truthiness of a `str` or `None`: only a non-empty string is true. */
  predicate Truthy(s: Option<string>) {
    s.Some? && s.value != ""
  }

  /** Python's `str()` of an id that may be None: the text itself, or "None". */
  function Str(id: Option<string>): string {
    if id.Some? then id.value else "None"
  }
}
