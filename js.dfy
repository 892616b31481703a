/**
 * The slice of JavaScript value semantics the proxy code depends on: truthiness (`!x`),
 * nullish coalescing (`??`), property and index reads (which throw on null/undefined),
 * spreading into an argument list, and the `String(x)` / `x.toString()` conversion.
 * Numbers are modelled as integers; floating point is not part of this model.
 */
module Js {
  import opened Base
  import opened Decimal
  import Long64

  type Byte = b: int | 0 <= b < 256

  datatype Value =
    | Undefined
    | Null
    | Bool(b: bool)
    | Num(n: int)
    | Str(s: string)
    | Bytes(bytes: seq<Byte>)          // a Uint8Array
    | LongV(long: Long64.Int64)        // an instance of the `long` library's Long
    | Arr(items: seq<Value>)
    | Obj(fields: map<string, Value>)  // a plain object; absent keys read as undefined

  /** Messages of the TypeErrors the engine throws; their exact wording is engine-specific. */
  const ReadOfNullish := "Cannot read properties of null or undefined"
  const NotIterable := "Spread syntax requires an iterable"
  const NotAFunction := "Not a function"

  /** `!!v` */
  predicate Truthy(v: Value) {
    match v
    case Undefined => false
    case Null => false
    case Bool(b) => b
    case Num(n) => n != 0
    case Str(s) => s != ""
    case _ => true
  }

  /** No `Long` instance anywhere inside `v`: the values the typed-array codec carries faithfully. */
  predicate NoLong(v: Value) {
    match v
    case LongV(_) => false
    case Arr(items) => forall i | 0 <= i < |items| :: NoLong(items[i])
    case Obj(fields) => forall k | k in fields :: NoLong(fields[k])
    case _ => true
  }

  predicate Nullish(v: Value) {
    v.Undefined? || v.Null?
  }

  /** `a ?? b` */
  function Coalesce(a: Value, b: Value): (r: Value)
    ensures !Nullish(a) ==> r == a
    ensures Nullish(a) ==> r == b
  {
    if Nullish(a) then b else a
  }

  /** `v.key` for a key that is not an array index, when `v` is neither null nor undefined. */
  function FieldOf(v: Value, key: string): (r: Value)
    ensures !v.Obj? ==> r == Undefined
    ensures v.Obj? && key !in v.fields ==> r == Undefined
  {
    if v.Obj? && key in v.fields then v.fields[key] else Undefined
  }

  /** `v.key` for a key that is not an array index: throws on null/undefined. */
  function GetField(v: Value, key: string): (r: Result<Value>)
    ensures r.Err? <==> Nullish(v)
    ensures r.Ok? ==> r.value == FieldOf(v, key)
  {
    if Nullish(v) then Err(ReadOfNullish) else Ok(FieldOf(v, key))
  }

  /** `v[i]` when `v` is neither null nor undefined: undefined past the end. */
  function ElementOf(v: Value, i: nat): (r: Value)
    ensures v.Arr? ==> r == if i < |v.items| then v.items[i] else Undefined
  {
    match v
    case Arr(xs) => if i < |xs| then xs[i] else Undefined
    case Str(s) => if i < |s| then Str([s[i]]) else Undefined
    case Bytes(bs) => if i < |bs| then Num(bs[i]) else Undefined
    case Obj(m) => var k := Digits(i); if k in m then m[k] else Undefined
    case _ => Undefined
  }

  /** `f(...v)`: the argument list of a spread, or the TypeError of a non-iterable. */
  function Spread(v: Value): (r: Result<seq<Value>>)
    ensures v.Arr? ==> r == Ok(v.items)
    ensures r.Ok? <==> v.Arr? || v.Str? || v.Bytes?
  {
    match v
    case Arr(xs) => Ok(xs)
    case Str(s) => Ok(seq(|s|, i requires 0 <= i < |s| => Str([s[i]])))
    case Bytes(bs) => Ok(seq(|bs|, i requires 0 <= i < |bs| => Num(bs[i])))
    case _ => Err(NotIterable)
  }

  /** `String(v)`; for every value other than null and undefined this is also `v.toString()`. */
  function ToStr(v: Value): string
    decreases v, 1, 0
  {
    match v
    case Undefined => "undefined"
    case Null => "null"
    case Bool(b) => if b then "true" else "false"
    case Num(n) => SignedDigits(n)
    case Str(s) => s
    case Bytes(bs) => JoinBytes(bs)
    case LongV(n) => Long64.ToString(n)
    case Arr(_) => JoinItems(v, 0)
    case Obj(_) => "[object Object]"
  }

  /** `Array.prototype.join(",")` from index `i` on, where null and undefined elements print as "". */
  function JoinItems(v: Value, i: nat): string
    requires v.Arr? && i <= |v.items|
    decreases v, 0, |v.items| - i
  {
    if i == |v.items| then ""
    else
      var x := v.items[i];
      var piece := if Nullish(x) then "" else ToStr(x);
      if i + 1 == |v.items| then piece else piece + "," + JoinItems(v, i + 1)
  }

  function JoinBytes(bs: seq<Byte>): string {
    if bs == [] then ""
    else if |bs| == 1 then Digits(bs[0])
    else Digits(bs[0]) + "," + JoinBytes(bs[1..])
  }

  predicate StartsWith(s: string, prefix: string) {
    |prefix| <= |s| && s[..|prefix|] == prefix
  }

  /** `v?.toString()?.startsWith('0x')`: false for null and undefined. */
  predicate HasHexPrefix(v: Value) {
    !Nullish(v) && StartsWith(ToStr(v), "0x")
  }
}
