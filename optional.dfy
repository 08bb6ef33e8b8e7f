/** Absent values and JavaScript truthiness of strings. */
module Optional {

  /** `T | undefined` (or `T | null`, `T | void`) of the source. */
  datatype Option<+T> = None | Some(value: T) {

    function GetOr(default: T): T {
      match this
      case Some(v) => v
      case None => default
    }
  }

  /** `if (s)` on a `string | undefined`: absent and empty strings are falsy. */
  predicate Truthy(s: Option<string>) {
    s.Some? && s.value != ""
  }
}
