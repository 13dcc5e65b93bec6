/** The request and response envelopes wrapped around every call. */
module Envelope {
  import opened Wrappers
  import opened Json
  import opened ApiVersions
  import opened Errors

  /** The outgoing message. A `Null` params field stands for "no parameters". */
  datatype Request = Request(action: string, version: i64, params: Value)

  /** The incoming message: a result, and an error message when the call failed. */
  datatype Response = Response(result: Value, error: Option<string>)

  /** Fills in the envelope for one call: absent params become `Null`. */
  function BuildRequest(version: ApiVersion, action: string, params: Option<Value>): (req: Request)
    ensures req.action == action && req.version == version.ToI64()
    ensures req.params.Null? <==> params.None? || params == Some(Null)
    ensures params.Some? ==> req.params == params.value
  {
    Request(action, version.ToI64(), params.GetOr(Null))
  }

  /** Serialises a request as a JSON object, in field order, skipping a `Null` params field. */
  function EncodeRequest(req: Request): (j: Value)
    ensures j.Obj?
    ensures Keys(j.fields) == ["action", "version"] + (if req.params.Null? then [] else ["params"])
    ensures Lookup(j.fields, "action") == Some(Str(req.action))
    ensures Lookup(j.fields, "version") == Some(Int(req.version))
    ensures Lookup(j.fields, "params") == if req.params.Null? then None else Some(req.params)
  {
    var head := [("action", Str(req.action)), ("version", Int(req.version))];
    assert "params"[0] != "action"[0] && "params"[0] != "version"[0];
    if req.params.Null? then
      Obj(head)
    else
      var fields := head + [("params", req.params)];
      assert fields[1..][1..] == [("params", req.params)];
      assert Lookup(fields[1..], "params") == Some(req.params);
      Obj(fields)
  }

  /** Reads a request object back; a missing params field reads as `Null`. */
  function DecodeRequest(j: Value): Option<Request>
  {
    if !j.Obj? then None
    else
      match (Lookup(j.fields, "action"), Lookup(j.fields, "version"))
      case (Some(Str(a)), Some(Int(v))) => Some(Request(a, v, Lookup(j.fields, "params").GetOr(Null)))
      case _ => None
  }

  /** Encoding loses nothing: every request, with or without params, is read back as it was. */
  lemma RequestRoundTrip(req: Request)
    ensures DecodeRequest(EncodeRequest(req)) == Some(req)
  {
  }

  /** The body `call` posts for an action: action and version always, params only when present and not `Null`. */
  function RequestBody(version: ApiVersion, action: string, params: Option<Value>): (body: Value)
    ensures body.Obj?
    ensures Lookup(body.fields, "action") == Some(Str(action))
    ensures Lookup(body.fields, "version") == Some(Int(version.ToI64()))
    ensures params.None? || params == Some(Null) ==> Keys(body.fields) == ["action", "version"]
    ensures params.Some? && params.value != Null ==>
              Keys(body.fields) == ["action", "version", "params"]
              && Lookup(body.fields, "params") == Some(params.value)
  {
    EncodeRequest(BuildRequest(version, action, params))
  }

  /** `Some(Null)` params are sent exactly as no params. */
  lemma NullParamsAsNone(version: ApiVersion, action: string)
    ensures RequestBody(version, action, Some(Null)) == RequestBody(version, action, None)
  {
  }

  /** Turns a response into the call's outcome: any error message, even an
      empty one, is a failure carrying that message verbatim, whatever the
      result holds; otherwise the result is returned unchanged. */
  function MapResponse(resp: Response): (r: Result<Value, CallError>)
    ensures r.Success? <==> resp.error.None?
    ensures r.Success? ==> r.value == resp.result
    ensures r.Failure? ==> r.error == Anki(AnkiConnectError(resp.error.value))
  {
    match resp.error
    case Some(msg) => Failure(Anki(AnkiConnectError(msg)))
    case None => Success(resp.result)
  }

  /** The response a server sends for an outcome: the result with no error, or `Null` with the message. */
  function Reply(outcome: Result<Value, string>): (resp: Response)
    ensures outcome.Success? ==> resp.error.None?
    ensures outcome.Failure? ==> resp.error == Some(outcome.error)
  {
    match outcome
    case Success(v) => Response(v, None)
    case Failure(msg) => Response(Null, Some(msg))
  }

  /** `MapResponse` undoes `Reply`: results and messages come back unchanged. */
  lemma MapReply(outcome: Result<Value, string>)
    ensures outcome.Success? ==> MapResponse(Reply(outcome)) == Success(outcome.value)
    ensures outcome.Failure? ==> MapResponse(Reply(outcome)) == Failure(Anki(AnkiConnectError(outcome.error)))
  {
  }

  /** When an error is present the result is ignored: two responses with the same error map alike. */
  lemma ErrorIgnoresResult(r1: Value, r2: Value, msg: string)
    ensures MapResponse(Response(r1, Some(msg))) == MapResponse(Response(r2, Some(msg)))
  {
  }
}
