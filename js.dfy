/** JSON-like JavaScript values and the three operators the route handlers
    build their defaults from: `||` (first truthy), `??` (first
    non-nullish) and optional property access `?.`. */
module Js {
  import opened Common

  datatype Value =
    | Undefined
    | Null
    | Bool(b: bool)
    | Num(n: real)
    | NaN
    | Str(s: string)
    | Arr(elems: seq<Value>)
    | Obj(fields: map<string, Value>)

  /** JavaScript truthiness: `undefined`, `null`, `false`, `0`, `NaN` and
      `""` are falsy, everything else (objects and arrays included) is
      truthy. */
  predicate Truthy(v: Value) {
    match v
    case Undefined => false
    case Null => false
    case NaN => false
    case Bool(b) => b
    case Num(n) => n != 0.0
    case Str(s) => s != []
    case Arr(_) => true
    case Obj(_) => true
  }

  predicate Nullish(v: Value) {
    v.Undefined? || v.Null?
  }

  /** `a || b`. */
  function Or(a: Value, b: Value): Value {
    if Truthy(a) then a else b
  }

  /** `a ?? b`. */
  function Coalesce(a: Value, b: Value): Value {
    if Nullish(a) then b else a
  }

  /** `v?.key` (and `v.key` on an object): a missing key, or a value that
      has no such property, reads as `undefined`. */
  function Get(v: Value, key: string): Value {
    if v.Obj? && key in v.fields then v.fields[key] else Undefined
  }

  /** A string-valued JavaScript value as text: `Some` for a string. */
  function AsString(v: Value): Option<string> {
    if v.Str? then Some(v.s) else None
  }

  /** `||` yields its first operand exactly when that one is truthy, and a
      chain of `||` yields a truthy value whenever any operand is truthy. */
  lemma OrChain(a: Value, b: Value, c: Value)
    ensures Truthy(Or(Or(a, b), c)) <==> Truthy(a) || Truthy(b) || Truthy(c)
    ensures Truthy(a) ==> Or(Or(a, b), c) == a
    ensures !Truthy(a) && Truthy(b) ==> Or(Or(a, b), c) == b
    ensures !Truthy(a) && !Truthy(b) ==> Or(Or(a, b), c) == c
  {
  }

  /** `??` only skips `undefined` and `null`: a falsy but present first
      operand such as `""` or `0` wins over the later ones. */
  lemma CoalesceChain(a: Value, b: Value, c: Value)
    ensures !Nullish(a) ==> Coalesce(Coalesce(a, b), c) == a
    ensures Nullish(a) && !Nullish(b) ==> Coalesce(Coalesce(a, b), c) == b
    ensures Nullish(a) && Nullish(b) ==> Coalesce(Coalesce(a, b), c) == c
  {
  }
}
