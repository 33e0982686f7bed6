/** JavaScript values as the cache holds and copies them. */
module Values {

  datatype Option<+T> = None | Some(value: T)

  /** A JavaScript primitive other than `undefined` and `null`; numbers are integers here. */
  datatype Primitive = Bool(b: bool) | Num(n: int) | Str(s: string)

  /** A JSON-like value with dates. An object is the list of its own properties,
      in the order `Object.getOwnPropertyNames` reports them. */
  datatype Value =
    | Undefined
    | Null
    | Prim(p: Primitive)
    | Date(time: int)
    | Arr(items: seq<Value>)
    | Obj(props: seq<(string, Value)>)

  /** JavaScript truthiness: `undefined`, `null`, `false`, `0` and `""` are falsy,
      every object (arrays and dates included) is truthy. */
  predicate Truthy(v: Value) {
    match v
    case Undefined => false
    case Null => false
    case Prim(p) =>
      (match p
       case Bool(b) => b
       case Num(n) => n != 0
       case Str(s) => s != "")
    case _ => true
  }

  /** JavaScript `a || b`: one of its operands, truthy exactly when either operand is,
      and the first operand whenever that one is truthy. */
  function Or(a: Value, b: Value): (r: Value)
    ensures r == a || r == b
    ensures Truthy(r) <==> Truthy(a) || Truthy(b)
    ensures Truthy(a) ==> r == a
    ensures !Truthy(a) ==> r == b
  {
    if Truthy(a) then a else b
  }

  /** JavaScript `s || fallback` for an optional string: the given string or the
      fallback, non-empty exactly when one of them is, and a non-empty given string wins. */
  function OrString(s: Option<string>, fallback: string): (r: string)
    ensures r == fallback || (s.Some? && r == s.value)
    ensures r != "" <==> (s.Some? && s.value != "") || fallback != ""
    ensures s.Some? && s.value != "" ==> r == s.value
    ensures (s.None? || s.value == "") ==> r == fallback
  {
    if s.Some? && s.value != "" then s.value else fallback
  }

  function StringValue(s: string): (v: Value)
    ensures Truthy(v) <==> s != ""
  {
    Prim(Str(s))
  }
}
