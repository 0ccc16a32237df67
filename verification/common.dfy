/** Values shared by every module: optional values and identifiers. */
module Common {

  /** A value that may be absent (`undefined`/`null` in the editor, a missing key in a partial object). */
  datatype Option<+T> = None | Some(value: T) {
    function GetOr(default: T): T {
      match this
      case Some(v) => v
      case None => default
    }
  }

  /** Identifiers are uuid strings; the model never inspects their shape. */
  type Id = string

  /** JavaScript `||` on a string: the empty string is falsy, so it falls back. */
  function OrString(s: Option<string>, fallback: string): (r: string)
    ensures s.Some? && s.value != "" ==> r == s.value
    ensures (s.None? || s.value == "") ==> r == fallback
  {
    if s.Some? && s.value != "" then s.value else fallback
  }

  /** JavaScript `||` on a number: zero is falsy, so it falls back. */
  function OrNumber(n: Option<int>, fallback: int): (r: int)
    ensures n.Some? && n.value != 0 ==> r == n.value
    ensures (n.None? || n.value == 0) ==> r == fallback
  {
    if n.Some? && n.value != 0 then n.value else fallback
  }
}
