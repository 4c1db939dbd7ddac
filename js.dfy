/** The dynamic JavaScript values that flow through the node: vendor answers,
    node parameters and the JSON items the node emits.  Only the operators the
    modelled code applies to them are defined here: truthiness, `||`,
    optional (`?.`) and plain (`.`) property reads, and object spread. */
module Js {
  import opened Wrappers
  import Decimal

  /** A JavaScript value; numbers are integers here and objects are maps from
      property names to values. */
  datatype Value =
    | Undefined
    | Null
    | Bool(b: bool)
    | Num(n: int)
    | Str(s: string)
    | Arr(elems: seq<Value>)
    | Obj(fields: map<string, Value>)

  /** JavaScript truthiness: `undefined`, `null`, `false`, `0` and `""` are falsy. */
  predicate Truthy(v: Value) {
    match v
    case Undefined => false
    case Null => false
    case Bool(b) => b
    case Num(n) => n != 0
    case Str(s) => s != ""
    case Arr(_) => true
    case Obj(_) => true
  }

  /** `a || b`: `a` when it is truthy, otherwise `b`. */
  function Or(a: Value, b: Value): (r: Value)
    ensures Truthy(a) ==> r == a
    ensures !Truthy(a) ==> r == b
  {
    if Truthy(a) then a else b
  }

  /** `v?.key` for a key that is not a built-in property (`error`, `data`,
      `thingList`, ...): the field of an object, `undefined` for anything else. */
  function Get(v: Value, key: string): Value {
    if v.Obj? && key in v.fields then v.fields[key] else Undefined
  }

  /** `v.key`: like `v?.key`, except that reading a property of `null` or
      `undefined` throws a TypeError (its message as the V8 engine words it). */
  function Member(v: Value, key: string): (r: Result<Value, string>)
    ensures r.Failure? <==> v.Undefined? || v.Null?
    ensures r.Success? ==> r.value == Get(v, key)
  {
    match v
    case Undefined => Failure(CannotRead("undefined", key))
    case Null => Failure(CannotRead("null", key))
    case _ => Success(Get(v, key))
  }

  function CannotRead(base: string, key: string): string {
    "Cannot read properties of " + base + " (reading '" + key + "')"
  }

  /** The properties `...v` copies into an object literal: the fields of an
      object, the elements of an array or the characters of a string under
      their decimal indices, and nothing for any other value. */
  function Spread(v: Value): (m: map<string, Value>)
    ensures v.Obj? ==> m == v.fields
    ensures !v.Obj? && !v.Arr? && !v.Str? ==> m == map[]
  {
    match v
    case Obj(fields) => fields
    case Arr(xs) => IndexKeyed(xs)
    case Str(s) => IndexKeyed(seq(|s|, k requires 0 <= k < |s| => Str([s[k]])))
    case _ => map[]
  }

  /** An array's elements keyed by their decimal indices. */
  function IndexKeyed(xs: seq<Value>): (m: map<string, Value>)
    ensures forall i :: 0 <= i < |xs| ==> Decimal.NatToString(i) in m && m[Decimal.NatToString(i)] == xs[i]
    ensures forall key :: key in m ==> exists i :: 0 <= i < |xs| && key == Decimal.NatToString(i)
    decreases |xs|
  {
    if xs == [] then map[]
    else
      var n := |xs| - 1;
      var m := IndexKeyed(xs[..n]);
      assert forall i :: 0 <= i < n ==> Decimal.NatToString(i) != Decimal.NatToString(n) by {
        forall i | 0 <= i < n ensures Decimal.NatToString(i) != Decimal.NatToString(n) {
          if Decimal.NatToString(i) == Decimal.NatToString(n) {
            Decimal.NatToStringInjective(i, n);
          }
        }
      }
      m[Decimal.NatToString(n) := xs[n]]
  }

  /** `v?.[n]`: an element of an array, a character of a string, the
      property named by the digits of `n` of an object, and `undefined` for
      anything else or past the end. */
  function At(v: Value, n: nat): (r: Value)
    ensures v.Arr? && n < |v.elems| ==> r == v.elems[n]
    ensures v.Obj? ==> r == Get(v, Decimal.NatToString(n))
    ensures !v.Arr? && !v.Str? && !v.Obj? ==> r == Undefined
  {
    match v
    case Arr(xs) => if n < |xs| then xs[n] else Undefined
    case Str(s) => if n < |s| then Str([s[n]]) else Undefined
    case Obj(_) => Get(v, Decimal.NatToString(n))
    case _ => Undefined
  }

  /** `v.length` of an array. */
  function Length(v: Value): nat
    requires v.Arr?
  {
    |v.elems|
  }
}
