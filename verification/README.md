# AnkiConnect client: envelope and typed decoders

A Dafny model of the Rust client for AnkiConnect, the JSON-over-HTTP control
API of the Anki flashcard application. The client wraps every action in one
request envelope `{action, version, params}`, posts it to
`http://host:port`, and maps the response envelope `{result, error}` to a
result or an error. Typed wrappers then check the shape of the result.

The model covers:

- JSON values (`Json.Value`), with numbers split the way `as_i64` splits them:
  `Int` for `i64`-representable numbers, `OtherNumber` for the rest.
- The protocol version (`ApiVersions`), default 6.
- The error type and its display text (`Errors`).
- The endpoint URL and the decimal text of the port (`Endpoint`, `Decimal`).
- Request encoding, which omits a `Null` params field, and response mapping (`Envelope`).
- The typed decoders (`Decoders`).
- The client, its generic `Call` and the wrappers (`AnkiClient`).

The HTTP exchange is a function parameter `send: (url, body) -> Delivery`.
It stands for `reqwest` posting the body and serde parsing the reply. It
yields either a parsed `Response` or an opaque failure, and `Call` passes
that failure on as a `Transport` error.

`src/lib.rs` repeats `ApiVersion`, the envelopes, the error type and `call`
from `src/client.rs`, `src/api_version.rs` and `src/error.rs`. The model
defines each concept once. Rows that cite `src/lib.rs` point to the same members.

The model follows the code. In particular:

- `suspend` and `unsuspend` have no third "unknown" outcome. A `Null` result is
  the bool-parse error.
- Any error string, including an empty one, makes the call fail.
- The URL has no trailing slash.
- A decode mismatch is reported as the same `AnkiConnectError` type as a
  server error. Only its fixed message tells the two apart.

Partners proved:

- The request encoding has a decoder, and the round trip is exact.
- The URL has a parser. Both directions are proved, even for host names
  that contain colons.
- The decimal text of an integer has a parser, again both directions.
- The error display has a parser.
- Response mapping undoes `Reply`, which builds the server's response.
- The string filter distributes over concatenation and is the identity on
  arrays of strings.

`Call`, `AndThen` and the nine wrappers are compositions of these pieces.
Each wrapper is specified by if-and-only-if contracts against `Call`'s
outcome: when it succeeds, with what value, and with which error otherwise.

## Model

| member | source | states |
|---|---|---|
| ApiVersions.ApiVersion.ToI64 | src/api_version.rs:10-15 | the number returned is the one wrapped by `V`, with no failure path |
| ApiVersions.ToI64OfV | src/lib.rs:17-21 | `V(v).to_i64()` is `v` for every `v` |
| ApiVersions.Default | src/api_version.rs:18-20 | the default version's number is 6 |
| Errors.AnkiConnectError.Display | src/error.rs:16-20 | the text is the fixed prefix `AnkiConnect error message: ` followed by the message verbatim |
| Errors.AnkiConnectError.Description | src/error.rs:7-9 | the description is the fixed text `error returned by AnkiConnect`, whatever the message |
| Errors.AnkiConnectError.Cause | src/error.rs:11-13 | there is never a cause |
| Errors.DisplayRoundTrip | src/lib.rs:62-66 | the error is recovered from its display text, so displaying loses nothing of the message |
| Errors.ParseDisplayExact | src/error.rs:16-20 | every text the display parser accepts is the display of the error it returns |
| Decimal.IntToString | src/client.rs:57 | the text of the port is non-empty, ends in a digit, and holds only digits after an optional leading `-`, so it contains no colon or slash |
| Decimal.IntRoundTrip | src/client.rs:56-57 | the decimal text of any integer, including a negative port, is read back as that integer |
| Decimal.ParseIntExact | src/lib.rs:93-94 | every text the decimal parser accepts is the formatting of its value |
| Endpoint.Url | src/lib.rs:93-94 | the URL starts with `http://` and does not end with a slash |
| Endpoint.UrlRoundTrip | src/client.rs:56-57 | host name and port are recovered from the URL, even when the host name contains colons |
| Endpoint.ParseUrlExact | src/lib.rs:94 | every URL the parser accepts is the one built from the host and port it returns |
| Envelope.BuildRequest | src/client.rs:46-53 | the request's version is the client's version number; params are `Null` exactly when absent or given as `Null`, and otherwise are the given value |
| Envelope.EncodeRequest | src/client.rs:12-22 | the object has keys `action`, `version` and, only when params are not `Null`, `params`; each key maps to the request's field |
| Envelope.RequestRoundTrip | src/lib.rs:28-38 | decoding the encoded request gives back the request, with or without params |
| Envelope.RequestBody | src/lib.rs:83-90 | with no params or `Null` params the body has exactly the keys `action` and `version`; otherwise `params` holds the given value unchanged |
| Envelope.NullParamsAsNone | src/client.rs:49-52 | `Some(Null)` params produce the same body as no params |
| Envelope.MapResponse | src/client.rs:62-68 | success exactly when there is no error; success carries the result unchanged; failure carries the message verbatim, empty or not |
| Envelope.MapReply | src/lib.rs:99-105 | mapping the response built for an outcome gives that outcome back |
| Envelope.ErrorIgnoresResult | src/client.rs:62-66 | when there is an error message, the result field has no influence |
| Json.AsI64 | src/client.rs:78 | `as_i64` gives a number exactly for an `i64` number, and that number |
| Json.AsBool | src/client.rs:94 | `as_bool` gives a value exactly for a boolean, and that boolean |
| Json.AsArray | src/client.rs:148 | `as_array` gives elements exactly for an array, and those elements |
| Json.AsStr | src/client.rs:151 | `as_str` gives text exactly for a string, and that string |
| Decoders.DecodeI64 | src/client.rs:78-85 | success exactly for an `i64` number, which is returned; any other value gives `Could not parse i64 from json` |
| Decoders.DecodeBool | src/client.rs:94-101 | success exactly for a boolean, which is returned; any other value, `Null` included, gives `Could not parse bool from json` |
| Decoders.NonNullError | src/client.rs:112 | the message is `Received non-null response to `, the action name verbatim, then ` request` |
| Decoders.DecodeNull | src/client.rs:109-115 | success exactly for `Null`; any other value gives the action's non-null message |
| Decoders.FilterStrings | src/client.rs:148-154 | the output is no longer than the array and holds a string exactly when the array holds it as a string element |
| Decoders.FilterStringsAppend | src/client.rs:149-153 | filtering distributes over concatenation, so order is kept |
| Decoders.FilterStrArray | src/client.rs:186-191 | an array of only strings is returned whole, in order |
| Decoders.DecodeStrings | src/client.rs:148-159 | success exactly for an array, giving its string elements in order with duplicates kept (the filter of its items), no more names than elements; a non-array gives `Could not parse vector of strings from json` |
| Decoders.DecodeStrArray | src/client.rs:182-201 | decoding an array of strings gives the strings in order |
| AnkiClient.New | src/client.rs:39-41 | a new client keeps the host and port and speaks version 6 |
| AnkiClient.EndpointOfClient | src/client.rs:57 | the client's URL parses back to its host and port |
| AnkiClient.Call | src/client.rs:43-69 | the request for the action is posted to the client's URL; a failed exchange is a transport error; a delivered response is mapped as `MapResponse` states |
| AnkiClient.AndThen | src/client.rs:76-88 | call errors propagate unchanged; a successful result succeeds exactly when the decoder accepts it |
| AnkiClient.Version | src/client.rs:75-89 | `Ok(n)` exactly when the call returns the number `n`; call errors propagate; any other result gives the i64-parse error |
| AnkiClient.Upgrade | src/client.rs:91-105 | `Ok(b)` exactly when the call returns `Bool(b)`; call errors propagate; otherwise the bool-parse error |
| AnkiClient.Sync | src/client.rs:107-118 | `Ok(())` exactly when the call returns `Null`; call errors propagate; otherwise the sync non-null message |
| AnkiClient.LoadProfileParams | src/client.rs:121 | params are an object with the single key `name` holding the user name |
| AnkiClient.LoadProfile | src/client.rs:120-136 | `Ok(b)` exactly when the call returns `Bool(b)`; call errors propagate; otherwise the bool-parse error |
| AnkiClient.DeckNames | src/client.rs:145-164 | success exactly when the call returns an array, with its string elements in order; call errors propagate; otherwise the strings-parse error |
| AnkiClient.ModelNames | src/client.rs:182-201 | success exactly when the call returns an array, with its string elements in order; call errors propagate; otherwise the strings-parse error |
| AnkiClient.CardIds | src/client.rs:232 | the card ids become integer elements, one per id, in order |
| AnkiClient.CardsParams | src/client.rs:252 | params are an object with the single key `cards` holding the ids |
| AnkiClient.Suspend | src/client.rs:231-247 | `Ok(b)` exactly when the call returns `Bool(b)`; a `Null` or other result is the bool-parse error; call errors propagate |
| AnkiClient.Unsuspend | src/client.rs:251-267 | `Ok(b)` exactly when the call returns `Bool(b)`; a `Null` or other result is the bool-parse error; call errors propagate |
| AnkiClient.MediaFileParams | src/client.rs:282 | params are an object with the single key `filename` holding the file name |
| AnkiClient.DeleteMediaFile | src/client.rs:281-294 | `Ok(())` exactly when the call returns `Null`; call errors propagate; otherwise the deleteMediaFile non-null message |
| AnkiClient.NewClientSendsVersionSix | src/lib.rs:76-85 | every request of a client built with `new` carries version 6 |
| AnkiClient.ParameterlessBody | src/lib.rs:86-89 | a call without params posts exactly the keys `action` and `version` |
| AnkiClient.ServerErrorWins | src/lib.rs:99-105 | a server error message makes the wrappers fail with that message, whatever the result |
| AnkiClient.SuspendNullIsError | src/client.rs:236-243 | a `Null` result to `suspend` is the bool-parse error, not a third outcome |
| AnkiClient.DeckNamesOfStrings | src/client.rs:145-154 | an array of deck names comes back whole and in order |

## Left out

- The HTTP exchange (`reqwest` posting and reading the reply) is the `send` parameter. Its failures are opaque `Transport` errors.
- Serde's byte-level JSON rendering and parsing are not modelled. A request is modelled as a JSON object value, and a reply as an already-parsed `Response`. A reply that does not parse as a response envelope is one of `send`'s failures.
- Floating-point and other non-`i64` numbers collapse into `OtherNumber`, keeping only their literal text. `as_i64` rejects them all alike.
- `Box<dyn Error>` is the closed datatype `CallError`, with `Transport` and `Anki` cases. Rust lifetimes and the `extern crate` and `default()` plumbing have no counterpart.
- Cloning an `AnkiConnectError`: Dafny datatype values are immutable, so a copy is the value itself and needs no member.
- The actions listed as TODO in `src/client.rs` are not implemented there and are not modelled.
- Json.Value: admits two kinds of value serde_json never produces, because the client never needs them excluded. One is an `OtherNumber` whose literal is an `i64` integer; serde_json reads that as a number `as_i64` accepts, except `-0`, which recent serde_json reads as a float (here `OtherNumber("-0")`, a mismatch, as in serde_json), here `Int`. The other is an `Obj` with a repeated key; serde_json's map holds one entry per key. `send` is unconstrained, so a modelled reply may carry either kind.
- Object member order in `params` follows the order the wrappers write them. Key order inside serde's map is not modelled.
