/** The AnkiConnect client: one generic `Call` that posts a request envelope and
    maps the response envelope, and the typed wrappers built on it. The HTTP
    exchange is a parameter, `send`, taking the URL and the request body. */
module AnkiClient {
  import opened Wrappers
  import opened Json
  import opened ApiVersions
  import opened Errors
  import opened Envelope
  import opened Decoders
  import Endpoint

  /** What the HTTP exchange yields: a parsed response envelope, or a failure
      of sending or of parsing the reply. */
  datatype Delivery = Delivered(response: Response) | Failed(detail: string)

  /** One HTTP POST of a JSON body to a URL. */
  type Exchange = (string, Value) -> Delivery

  /** A connection target and the protocol version claimed to it. */
  datatype Client = Client(hostname: string, port: i64, version: ApiVersion)

  /** A client for a host and port, speaking the default protocol version. */
  function New(hostname: string, port: i64): (c: Client)
    ensures c.hostname == hostname && c.port == port
    ensures c.version.ToI64() == 6
  {
    Client(hostname, port, Default())
  }

  /** The URL the client posts to. */
  function EndpointOf(c: Client): string
  {
    Endpoint.Url(c.hostname, c.port)
  }

  /** The client's URL parses back to its host and port. */
  lemma EndpointOfClient(c: Client)
    ensures Endpoint.ParseUrl(EndpointOf(c)) == Some((c.hostname, c.port))
  {
    Endpoint.UrlRoundTrip(c.hostname, c.port);
  }

  /** One request and one response: a failed exchange is a `Transport` error,
      and a delivered response is mapped by `MapResponse`, so an error message
      in it is an `Anki` error carrying it verbatim, and otherwise the result
      comes back unchanged. */
  function Call(c: Client, send: Exchange, action: string, params: Option<Value>): (r: Result<Value, CallError>)
    ensures var d := send(EndpointOf(c), RequestBody(c.version, action, params));
      && (d.Failed? ==> r == Failure(Transport(d.detail)))
      && (d.Delivered? ==> r == MapResponse(d.response))
  {
    match send(EndpointOf(c), RequestBody(c.version, action, params))
    case Failed(detail) => Failure(Transport(detail))
    case Delivered(resp) => MapResponse(resp)
  }

  /** Post-processes a call's outcome: call errors pass through unchanged,
      a successful result goes through `decode`. */
  function AndThen<T>(outcome: Result<Value, CallError>, decode: Value -> Result<T, AnkiConnectError>): (r: Result<T, CallError>)
    ensures outcome.Failure? ==> r == Failure(outcome.error)
    ensures outcome.Success? ==> (r.Success? <==> decode(outcome.value).Success?)
    ensures outcome.Success? && r.Success? ==> r.value == decode(outcome.value).value
    ensures outcome.Success? && r.Failure? ==> r.error == Anki(decode(outcome.value).error)
  {
    match outcome
    case Failure(e) => Failure(e)
    case Success(v) =>
      match decode(v)
      case Success(x) => Success(x)
      case Failure(e) => Failure(Anki(e))
  }

  /** The `Null`-only decoder for one action, as a function value. */
  function NullDecoder(action: string): Value -> Result<(), AnkiConnectError>
  {
    v => DecodeNull(action, v)
  }

  // ---------------------------------------------------------------------
  // Miscellaneous
  // ---------------------------------------------------------------------

  /** The server's API version: the result must be an `i64`. */
  function Version(c: Client, send: Exchange): (r: Result<i64, CallError>)
    ensures var out := Call(c, send, "version", None);
      && (out.Failure? ==> r == Failure(out.error))
      && (r.Success? <==> out.Success? && out.value.Int?)
      && (r.Success? ==> out.value == Int(r.value))
      && (out.Success? && !out.value.Int? ==> r == Failure(Anki(AnkiConnectError(I64_ERROR))))
  {
    AndThen(Call(c, send, "version", None), DecodeI64)
  }

  /** Asks the server to show its upgrade dialog: the result must be a boolean. */
  function Upgrade(c: Client, send: Exchange): (r: Result<bool, CallError>)
    ensures var out := Call(c, send, "upgrade", None);
      && (out.Failure? ==> r == Failure(out.error))
      && (r.Success? <==> out.Success? && out.value.Bool?)
      && (r.Success? ==> out.value == Bool(r.value))
      && (out.Success? && !out.value.Bool? ==> r == Failure(Anki(AnkiConnectError(BOOL_ERROR))))
  {
    AndThen(Call(c, send, "upgrade", None), DecodeBool)
  }

  /** Synchronises the collection: the result must be `Null`. */
  function Sync(c: Client, send: Exchange): (r: Result<(), CallError>)
    ensures var out := Call(c, send, "sync", None);
      && (out.Failure? ==> r == Failure(out.error))
      && (r.Success? <==> out.Success? && out.value.Null?)
      && (out.Success? && !out.value.Null? ==>
            r == Failure(Anki(AnkiConnectError("Received non-null response to sync request"))))
  {
    assert NonNullError("sync") == "Received non-null response to sync request";
    AndThen(Call(c, send, "sync", None), NullDecoder("sync"))
  }

  /** The params of `loadProfile`: the profile name. */
  function LoadProfileParams(username: string): (p: Value)
    ensures p.Obj? && Keys(p.fields) == ["name"]
    ensures Lookup(p.fields, "name") == Some(Str(username))
  {
    Obj([("name", Str(username))])
  }

  /** Switches to a profile: the result must be a boolean. */
  function LoadProfile(c: Client, send: Exchange, username: string): (r: Result<bool, CallError>)
    ensures var out := Call(c, send, "loadProfile", Some(LoadProfileParams(username)));
      && (out.Failure? ==> r == Failure(out.error))
      && (r.Success? <==> out.Success? && out.value.Bool?)
      && (r.Success? ==> out.value == Bool(r.value))
      && (out.Success? && !out.value.Bool? ==> r == Failure(Anki(AnkiConnectError(BOOL_ERROR))))
  {
    AndThen(Call(c, send, "loadProfile", Some(LoadProfileParams(username))), DecodeBool)
  }

  // ---------------------------------------------------------------------
  // Decks and models
  // ---------------------------------------------------------------------

  /** The deck names: any array is accepted and its strings kept in order. */
  function DeckNames(c: Client, send: Exchange): (r: Result<seq<string>, CallError>)
    ensures var out := Call(c, send, "deckNames", None);
      && (out.Failure? ==> r == Failure(out.error))
      && (r.Success? <==> out.Success? && out.value.Arr?)
      && (r.Success? ==> r.value == FilterStrings(out.value.items))
      && (out.Success? && !out.value.Arr? ==> r == Failure(Anki(AnkiConnectError(STRINGS_ERROR))))
  {
    AndThen(Call(c, send, "deckNames", None), DecodeStrings)
  }

  /** The note type names, decoded as `DeckNames` decodes deck names. */
  function ModelNames(c: Client, send: Exchange): (r: Result<seq<string>, CallError>)
    ensures var out := Call(c, send, "modelNames", None);
      && (out.Failure? ==> r == Failure(out.error))
      && (r.Success? <==> out.Success? && out.value.Arr?)
      && (r.Success? ==> r.value == FilterStrings(out.value.items))
      && (out.Success? && !out.value.Arr? ==> r == Failure(Anki(AnkiConnectError(STRINGS_ERROR))))
  {
    AndThen(Call(c, send, "modelNames", None), DecodeStrings)
  }

  // ---------------------------------------------------------------------
  // Cards
  // ---------------------------------------------------------------------

  /** A list of card ids as a JSON array of integers. */
  function CardIds(cards: seq<i64>): (items: seq<Value>)
    ensures |items| == |cards|
    ensures forall i :: 0 <= i < |cards| ==> items[i] == Int(cards[i])
  {
    if |cards| == 0 then [] else [Int(cards[0])] + CardIds(cards[1..])
  }

  /** The params of `suspend` and `unsuspend`: the card ids, in order. */
  function CardsParams(cards: seq<i64>): (p: Value)
    ensures p.Obj? && Keys(p.fields) == ["cards"]
    ensures Lookup(p.fields, "cards") == Some(Arr(CardIds(cards)))
  {
    Obj([("cards", Arr(CardIds(cards)))])
  }

  /** Suspends cards: the result must be a boolean; a `Null` result is a mismatch error. */
  function Suspend(c: Client, send: Exchange, cards: seq<i64>): (r: Result<bool, CallError>)
    ensures var out := Call(c, send, "suspend", Some(CardsParams(cards)));
      && (out.Failure? ==> r == Failure(out.error))
      && (r.Success? <==> out.Success? && out.value.Bool?)
      && (r.Success? ==> out.value == Bool(r.value))
      && (out.Success? && !out.value.Bool? ==> r == Failure(Anki(AnkiConnectError(BOOL_ERROR))))
  {
    AndThen(Call(c, send, "suspend", Some(CardsParams(cards))), DecodeBool)
  }

  /** Unsuspends cards, decoded as `Suspend` is. */
  function Unsuspend(c: Client, send: Exchange, cards: seq<i64>): (r: Result<bool, CallError>)
    ensures var out := Call(c, send, "unsuspend", Some(CardsParams(cards)));
      && (out.Failure? ==> r == Failure(out.error))
      && (r.Success? <==> out.Success? && out.value.Bool?)
      && (r.Success? ==> out.value == Bool(r.value))
      && (out.Success? && !out.value.Bool? ==> r == Failure(Anki(AnkiConnectError(BOOL_ERROR))))
  {
    AndThen(Call(c, send, "unsuspend", Some(CardsParams(cards))), DecodeBool)
  }

  // ---------------------------------------------------------------------
  // Media
  // ---------------------------------------------------------------------

  /** The params of `deleteMediaFile`: the file name. */
  function MediaFileParams(filename: string): (p: Value)
    ensures p.Obj? && Keys(p.fields) == ["filename"]
    ensures Lookup(p.fields, "filename") == Some(Str(filename))
  {
    Obj([("filename", Str(filename))])
  }

  /** Deletes a media file: the result must be `Null`. */
  function DeleteMediaFile(c: Client, send: Exchange, filename: string): (r: Result<(), CallError>)
    ensures var out := Call(c, send, "deleteMediaFile", Some(MediaFileParams(filename)));
      && (out.Failure? ==> r == Failure(out.error))
      && (r.Success? <==> out.Success? && out.value.Null?)
      && (out.Success? && !out.value.Null? ==>
            r == Failure(Anki(AnkiConnectError("Received non-null response to deleteMediaFile request"))))
  {
    assert NonNullError("deleteMediaFile") == "Received non-null response to deleteMediaFile request";
    AndThen(Call(c, send, "deleteMediaFile", Some(MediaFileParams(filename))), NullDecoder("deleteMediaFile"))
  }

  // ---------------------------------------------------------------------
  // Properties across calls
  // ---------------------------------------------------------------------

  /** A client made by `New` sends version 6 in every request, whatever the action and params. */
  lemma NewClientSendsVersionSix(hostname: string, port: i64, action: string, params: Option<Value>)
    ensures Lookup(RequestBody(New(hostname, port).version, action, params).fields, "version") == Some(Int(6))
  {
  }

  /** A parameterless call posts an object with exactly the keys `action` and `version`. */
  lemma ParameterlessBody(c: Client, action: string)
    ensures Keys(RequestBody(c.version, action, None).fields) == ["action", "version"]
  {
  }

  /** When the server answers with an error message, every wrapper fails with that message,
      whatever the result field holds. */
  lemma ServerErrorWins(c: Client, result: Value, msg: string, username: string, cards: seq<i64>, filename: string)
    ensures var send: Exchange := (u, b) => Delivered(Response(result, Some(msg)));
      var err := Anki(AnkiConnectError(msg));
      && Version(c, send) == Failure(err)
      && Upgrade(c, send) == Failure(err)
      && Sync(c, send) == Failure(err)
      && LoadProfile(c, send, username) == Failure(err)
      && DeckNames(c, send) == Failure(err)
      && ModelNames(c, send) == Failure(err)
      && Suspend(c, send, cards) == Failure(err)
      && Unsuspend(c, send, cards) == Failure(err)
      && DeleteMediaFile(c, send, filename) == Failure(err)
  {
  }

  /** A server answering a suspend with `Null` and no error gets a bool-parse error, not a third outcome. */
  lemma SuspendNullIsError(c: Client, cards: seq<i64>)
    ensures Suspend(c, (u, b) => Delivered(Response(Null, None)), cards)
            == Failure(Anki(AnkiConnectError(BOOL_ERROR)))
  {
  }

  /** A server answering `deckNames` with an array of strings gets them back in order. */
  lemma DeckNamesOfStrings(c: Client, names: seq<string>)
    ensures DeckNames(c, (u, b) => Delivered(Response(Arr(StrArray(names)), None))) == Success(names)
  {
    FilterStrArray(names);
  }
}
