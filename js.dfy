/** The slice of JavaScript's value semantics the bridge relies on: JSON values, thrown
    exceptions, truthiness (`||` defaults) and property reads. */
module Js {
  import opened Wrappers

  /** A JSON value. A missing property or argument (`undefined`) is `None` of an
      `Option<Value>`. Numbers are mathematical reals: JSON has no NaN or infinities,
      and floating-point rounding is not modelled. */
  datatype Value =
    | Null
    | Bool(b: bool)
    | Num(n: real)
    | Str(s: string)
    | Arr(items: seq<Value>)
    | Obj(fields: map<string, Value>)

  /** What a `throw` or a rejected promise carries: an `Error` (or a subclass) with its
      message, or some other thrown value. */
  datatype Exception = Error(message: string) | NonError(thrown: Value)

  /** JavaScript truthiness; `undefined`, `null`, `false`, `0` and `""` are falsy. */
  predicate Truthy(v: Option<Value>) {
    match v
    case None => false
    case Some(Null) => false
    case Some(Bool(b)) => b
    case Some(Num(n)) => n != 0.0
    case Some(Str(s)) => s != ""
    case Some(Arr(_)) => true
    case Some(Obj(_)) => true
  }

  /** `a || b`: the left operand when it is truthy, the right one otherwise. */
  function Or(a: Option<Value>, b: Value): (r: Value)
    ensures Truthy(a) ==> a == Some(r)
    ensures !Truthy(a) ==> r == b
  {
    if Truthy(a) then a.value else b
  }

  /** `v.key` on a value that is not `null`: only objects carry named properties
      (the prototype chain is not modelled). Callers handle `null` themselves, since
      reading a property of `null` throws. */
  function Get(v: Value, key: string): (r: Option<Value>)
    ensures r.Some? <==> v.Obj? && key in v.fields
    ensures r.Some? ==> r.value == v.fields[key]
  {
    if v.Obj? && key in v.fields then Some(v.fields[key]) else None
  }

  /** The `TypeError` that reading property `key` of `null` raises. */
  function NullRead(key: string): Exception {
    Error("Cannot read properties of null (reading '" + key + "')")
  }

  /** An object holding the defined ones among `v`'s properties `keys`, like the
      literal `{ k1: v.k1, k2: v.k2 }` once `JSON.stringify` drops undefined members. */
  function Pick(v: Value, keys: set<string>): (r: Value)
    ensures r.Obj? && r.fields.Keys == (if v.Obj? then v.fields.Keys * keys else {})
    ensures forall k :: k in r.fields ==> Get(v, k) == Some(r.fields[k])
  {
    if v.Obj? then Obj(map k | k in v.fields && k in keys :: v.fields[k]) else Obj(map[])
  }

  /** A truthy default makes `a || b` truthy whatever `a` is. */
  lemma OrWithTruthyDefault(a: Option<Value>, b: Value)
    requires Truthy(Some(b))
    ensures Truthy(Some(Or(a, b)))
  {
  }

  /** The decimal text of a natural number, as a template literal renders it. */
  function NatToString(n: nat): (s: string)
    ensures |s| > 0
    ensures forall i :: 0 <= i < |s| ==> '0' <= s[i] <= '9'
    ensures n < 10 <==> |s| == 1
  {
    if n < 10 then [Digit(n)] else NatToString(n / 10) + [Digit(n % 10)]
  }

  function Digit(d: nat): (c: char)
    requires d < 10
    ensures '0' <= c <= '9'
  {
    "0123456789"[d]
  }
}
