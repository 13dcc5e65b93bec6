/** How the typed wrappers read the result of a successful call. Every
    mismatch is an `AnkiConnectError` with a fixed message naming the expected shape. */
module Decoders {
  import opened Wrappers
  import opened Json
  import opened Errors

  const I64_ERROR: string := "Could not parse i64 from json"
  const BOOL_ERROR: string := "Could not parse bool from json"
  const STRINGS_ERROR: string := "Could not parse vector of strings from json"
  const NON_NULL_PREFIX: string := "Received non-null response to "
  const NON_NULL_SUFFIX: string := " request"

  /** The message for a no-payload action that returned something other than `Null`. */
  function NonNullError(action: string): (msg: string)
    ensures |msg| == |NON_NULL_PREFIX| + |action| + |NON_NULL_SUFFIX|
    ensures msg[..|NON_NULL_PREFIX|] == NON_NULL_PREFIX
    ensures msg[|NON_NULL_PREFIX|..|msg| - |NON_NULL_SUFFIX|] == action
    ensures msg[|msg| - |NON_NULL_SUFFIX|..] == NON_NULL_SUFFIX
  {
    NON_NULL_PREFIX + action + NON_NULL_SUFFIX
  }

  /** An `i64` result: anything but an `i64`-representable number is a mismatch. */
  function DecodeI64(v: Value): (r: Result<i64, AnkiConnectError>)
    ensures r.Success? <==> v.Int?
    ensures r.Success? ==> v == Int(r.value)
    ensures r.Failure? ==> r.error.errorMsg == I64_ERROR
  {
    match AsI64(v)
    case Some(n) => Success(n)
    case None => Failure(AnkiConnectError(I64_ERROR))
  }

  /** A boolean result: anything else, `Null` included, is a mismatch. */
  function DecodeBool(v: Value): (r: Result<bool, AnkiConnectError>)
    ensures r.Success? <==> v.Bool?
    ensures r.Success? ==> v == Bool(r.value)
    ensures r.Failure? ==> r.error.errorMsg == BOOL_ERROR
  {
    match AsBool(v)
    case Some(b) => Success(b)
    case None => Failure(AnkiConnectError(BOOL_ERROR))
  }

  /** The result of an action that returns nothing: only `Null` is accepted. */
  function DecodeNull(action: string, v: Value): (r: Result<(), AnkiConnectError>)
    ensures r.Success? <==> v.Null?
    ensures r.Failure? ==> r.error.errorMsg == NonNullError(action)
  {
    if v.Null? then Success(()) else Failure(AnkiConnectError(NonNullError(action)))
  }

  /** The string elements of an array, in order; other elements are dropped. */
  function FilterStrings(items: seq<Value>): (names: seq<string>)
    ensures |names| <= |items|
    ensures forall s :: s in names <==> Str(s) in items
    decreases |items|
  {
    if |items| == 0 then []
    else
      var tail := FilterStrings(items[1..]);
      assert items == [items[0]] + items[1..];
      match AsStr(items[0])
      case Some(s) => [s] + tail
      case None => tail
  }

  /** Filtering keeps order: it works element by element across a split. */
  lemma {:induction false} FilterStringsAppend(a: seq<Value>, b: seq<Value>)
    ensures FilterStrings(a + b) == FilterStrings(a) + FilterStrings(b)
    decreases |a|
  {
    if |a| > 0 {
      assert (a + b)[1..] == a[1..] + b;
      FilterStringsAppend(a[1..], b);
    } else {
      assert a + b == b;
    }
  }

  /** The array of strings `names`, as the server writes it. */
  function StrArray(names: seq<string>): (items: seq<Value>)
    ensures |items| == |names|
    ensures forall i :: 0 <= i < |names| ==> items[i] == Str(names[i])
  {
    if |names| == 0 then [] else [Str(names[0])] + StrArray(names[1..])
  }

  /** An array holding only strings loses nothing: the names come back in order. */
  lemma {:induction false} FilterStrArray(names: seq<string>)
    ensures FilterStrings(StrArray(names)) == names
    decreases |names|
  {
    if |names| > 0 {
      assert StrArray(names)[1..] == StrArray(names[1..]);
      FilterStrArray(names[1..]);
    }
  }

  /** A vector of strings: any array is accepted and its string elements kept in
      order, duplicates included; anything else is a mismatch. */
  function DecodeStrings(v: Value): (r: Result<seq<string>, AnkiConnectError>)
    ensures r.Success? <==> v.Arr?
    ensures r.Success? ==> |r.value| <= |v.items|
    ensures r.Success? ==> forall s :: s in r.value <==> Str(s) in v.items
    ensures r.Success? ==> r.value == FilterStrings(v.items)
    ensures r.Failure? ==> r.error.errorMsg == STRINGS_ERROR
  {
    match AsArray(v)
    case Some(items) => Success(FilterStrings(items))
    case None => Failure(AnkiConnectError(STRINGS_ERROR))
  }

  /** Decoding an array of strings gives the strings back in order. */
  lemma DecodeStrArray(names: seq<string>)
    ensures DecodeStrings(Arr(StrArray(names))) == Success(names)
  {
    FilterStrArray(names);
  }
}
