/** The URL every request is posted to. */
module Endpoint {
  import opened Wrappers
  import opened Json
  import Decimal

  const SCHEME: string := "http://"

  /** The index of the last ':' in `s`, if any. */
  function LastColon(s: string): (r: Option<nat>)
    ensures r.Some? ==> r.value < |s| && s[r.value] == ':'
    ensures r.Some? ==> forall k :: r.value < k < |s| ==> s[k] != ':'
    ensures r.None? ==> forall k :: 0 <= k < |s| ==> s[k] != ':'
  {
    if |s| == 0 then None
    else if s[|s| - 1] == ':' then Some(|s| - 1)
    else LastColon(s[..|s| - 1])
  }

  /** The scheme, the host name as given, a colon and the port in decimal; no trailing slash. */
  function Url(hostname: string, port: i64): (u: string)
    ensures |u| > |SCHEME| + |hostname| && u[..|SCHEME|] == SCHEME
    ensures u[|u| - 1] != '/'
  {
    SCHEME + hostname + ":" + Decimal.IntToString(port)
  }

  /** Splits a URL into host name and port at its last colon. */
  function ParseUrl(u: string): Option<(string, i64)>
  {
    if |u| < |SCHEME| || u[..|SCHEME|] != SCHEME then None
    else
      var rest := u[|SCHEME|..];
      match LastColon(rest)
      case None => None
      case Some(i) =>
        match Decimal.ParseInt(rest[i + 1..])
        case None => None
        case Some(p) => if MIN_I64 <= p <= MAX_I64 then Some((rest[..i], p as i64)) else None
  }

  /** The host name and port are recovered from the URL, even when the host name holds colons. */
  lemma UrlRoundTrip(hostname: string, port: i64)
    ensures ParseUrl(Url(hostname, port)) == Some((hostname, port))
  {
    var u := Url(hostname, port);
    var digits := Decimal.IntToString(port);
    var rest := u[|SCHEME|..];
    assert rest == hostname + ":" + digits;
    assert rest[|hostname|] == ':';
    assert LastColon(rest) == Some(|hostname|);
    assert rest[..|hostname|] == hostname;
    assert rest[|hostname| + 1..] == digits;
    Decimal.IntRoundTrip(port);
  }

  /** Every URL `ParseUrl` accepts is exactly the one `Url` builds from its parts. */
  lemma ParseUrlExact(u: string, hostname: string, port: i64)
    requires ParseUrl(u) == Some((hostname, port))
    ensures Url(hostname, port) == u
  {
    var rest := u[|SCHEME|..];
    var i := LastColon(rest).value;
    Decimal.ParseIntExact(rest[i + 1..], port);
    assert rest == rest[..i] + ":" + rest[i + 1..];
    assert u == SCHEME + rest;
  }
}
