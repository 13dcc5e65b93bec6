/** The structured JSON values the client sends and receives (serde_json's `Value`).
    Numbers are split the way `as_i64` splits them: those representable as a
    signed 64-bit integer, and all others (floats, large unsigned values). */
module Json {
  import opened Wrappers

  const MIN_I64: int := -0x8000_0000_0000_0000
  const MAX_I64: int := 0x7FFF_FFFF_FFFF_FFFF

  /** Rust's `i64`. */
  type i64 = n: int | MIN_I64 <= n <= MAX_I64

  /** A parsed JSON value. Two kinds of value are admitted here that serde_json
      never produces, and the client never relies on either: an `OtherNumber`
      whose literal is an `i64` integer (serde_json reads such a number as
      one that `as_i64` accepts, here `Int`, except `-0`, which recent
      serde_json reads as a float), and an `Obj` with a repeated
      key (serde_json's map keeps one entry per key). */
  datatype Value =
    | Null
    | Bool(b: bool)
    | Int(n: i64)
      /** A number outside `i64`: a float, or an unsigned integer above `MAX_I64`. */
    | OtherNumber(literal: string)
    | Str(s: string)
    | Arr(items: seq<Value>)
      /** An object, with its members in serialisation order. */
    | Obj(fields: seq<(string, Value)>)

  /** `Value::as_i64`: the number, when it fits in an `i64`. */
  function AsI64(v: Value): (r: Option<i64>)
    ensures r.Some? <==> v.Int?
    ensures r.Some? ==> v == Int(r.value)
  {
    match v
    case Int(n) => Some(n)
    case _ => None
  }

  /** `Value::as_bool`. */
  function AsBool(v: Value): (r: Option<bool>)
    ensures r.Some? <==> v.Bool?
    ensures r.Some? ==> v == Bool(r.value)
  {
    match v
    case Bool(b) => Some(b)
    case _ => None
  }

  /** `Value::as_str`. */
  function AsStr(v: Value): (r: Option<string>)
    ensures r.Some? <==> v.Str?
    ensures r.Some? ==> v == Str(r.value)
  {
    match v
    case Str(s) => Some(s)
    case _ => None
  }

  /** `Value::as_array`. */
  function AsArray(v: Value): (r: Option<seq<Value>>)
    ensures r.Some? <==> v.Arr?
    ensures r.Some? ==> v == Arr(r.value)
  {
    match v
    case Arr(items) => Some(items)
    case _ => None
  }

  /** The member names of an object, in order. */
  function Keys(fields: seq<(string, Value)>): (ks: seq<string>)
    ensures |ks| == |fields|
    ensures forall i :: 0 <= i < |fields| ==> ks[i] == fields[i].0
  {
    if |fields| == 0 then [] else [fields[0].0] + Keys(fields[1..])
  }

  /** The value of the first member named `key`, if any. */
  function Lookup(fields: seq<(string, Value)>, key: string): (r: Option<Value>)
    ensures r.None? <==> key !in Keys(fields)
  {
    if |fields| == 0 then None
    else if fields[0].0 == key then Some(fields[0].1)
    else Lookup(fields[1..], key)
  }
}
