/** The JavaScript values the widget inspects with `||`, `typeof` and `===`,
    and their truthiness. Numbers are integers here; objects and arrays are
    one opaque truthy value. */
module Js {

  datatype Value = Undefined | Null | Bool(b: bool) | Num(n: int) | Str(s: string) | Compound

  /** ToBoolean: `undefined`, `null`, `false`, `0` and `""` are falsy. */
  predicate Truthy(v: Value) {
    match v
    case Undefined => false
    case Null => false
    case Bool(b) => b
    case Num(n) => n != 0
    case Str(s) => s != ""
    case Compound => true
  }

  /** `a || b`: the left operand when it is truthy, else the right one. */
  function Or(a: Value, b: Value): (r: Value)
    ensures Truthy(a) ==> r == a
    ensures !Truthy(a) ==> r == b
  {
    if Truthy(a) then a else b
  }
}
