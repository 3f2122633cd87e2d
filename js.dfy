/** JavaScript value conventions shared by the server controllers and the
    client: identifiers, optional fields (`undefined`), and string truthiness. */
module Js {

  /** Every identifier in the system (`_id`) is a string. */
  type Id = string

  /** A field that may be `undefined`/`null` (None) or present (Some). */
  datatype Option<+T> = None | Some(value: T) {
    /** `x ?? d` */
    function GetOr(default: T): T {
      match this
      case Some(v) => v
      case None => default
    }
  }

  /** An optional string is truthy when it is present and not "". */
  predicate Truthy(x: Option<string>) {
    x.Some? && x.value != ""
  }

  /** `x || fallback` for an optional string. */
  function Or(x: Option<string>, fallback: string): string {
    if Truthy(x) then x.value else fallback
  }

  /** `x || null` for an optional string. */
  function OrNull(x: Option<string>): Option<string> {
    if Truthy(x) then x else None
  }
}
