/** JavaScript values as the component sees them: an optional string field of a
    JSON record is either missing (`undefined`) or present, and the `||`
    operator picks its left operand only when that operand is truthy. */
module Js {

  /** A field that may be missing from the parsed JSON (`undefined` or `null`). */
  datatype Option<+T> = None | Some(value: T)

  /** JavaScript truthiness of an optional string: a missing value and the
      empty string are falsy, every other string is truthy. */
  predicate Truthy(v: Option<string>) {
    v.Some? && v.value != ""
  }

  /** JavaScript `a || b` on optional strings: `a` when it is truthy, else `b`. */
  function Or(a: Option<string>, b: Option<string>): (r: Option<string>)
    ensures Truthy(r) <==> Truthy(a) || Truthy(b)
    ensures Truthy(a) ==> r == a
    ensures !Truthy(a) ==> r == b
  {
    if Truthy(a) then a else b
  }

  /** The value of a chain `a || b || "literal"` ending in a string literal:
      the first truthy operand, else the literal. */
  function OrDefault(a: Option<string>, b: Option<string>, last: string): (r: string)
    ensures last != "" ==> r != ""
    ensures Truthy(a) ==> r == a.value
    ensures !Truthy(a) && Truthy(b) ==> r == b.value
    ensures !Truthy(a) && !Truthy(b) ==> r == last
  {
    Or(Or(a, b), Some(last)).value
  }
}
