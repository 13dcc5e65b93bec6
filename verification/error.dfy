/** The error value the client reports: the remote application's message, or a
    local decoding message, or a failure of the HTTP exchange. */
module Errors {
  import opened Wrappers

  const DISPLAY_PREFIX: string := "AnkiConnect error message: "
  const DESCRIPTION: string := "error returned by AnkiConnect"

  /** An error carrying a free-text message and nothing else. */
  datatype AnkiConnectError = AnkiConnectError(errorMsg: string) {

    /** The user-facing text: a fixed prefix, then the message verbatim. */
    function Display(): (s: string)
      ensures |s| == |DISPLAY_PREFIX| + |errorMsg|
      ensures s[..|DISPLAY_PREFIX|] == DISPLAY_PREFIX
      ensures s[|DISPLAY_PREFIX|..] == errorMsg
    {
      DISPLAY_PREFIX + errorMsg
    }

    /** The fixed description, whatever the message. */
    function Description(): (s: string)
      ensures s == DESCRIPTION
    {
      DESCRIPTION
    }

    /** There is never an underlying cause. */
    function Cause(): (c: Option<AnkiConnectError>)
      ensures c.None?
    {
      None
    }
  }

  /** Recovers the error from its displayed text. */
  function ParseDisplay(s: string): Option<AnkiConnectError>
  {
    if |DISPLAY_PREFIX| <= |s| && s[..|DISPLAY_PREFIX|] == DISPLAY_PREFIX
    then Some(AnkiConnectError(s[|DISPLAY_PREFIX|..]))
    else None
  }

  /** Displaying loses nothing: the error is recovered from its text. */
  lemma DisplayRoundTrip(e: AnkiConnectError)
    ensures ParseDisplay(e.Display()) == Some(e)
  {
  }

  /** Every text `ParseDisplay` accepts is the display of what it returns. */
  lemma ParseDisplayExact(s: string, e: AnkiConnectError)
    requires ParseDisplay(s) == Some(e)
    ensures e.Display() == s
  {
    assert s == s[..|DISPLAY_PREFIX|] + s[|DISPLAY_PREFIX|..];
  }

  /** What a failed call reports: the HTTP exchange failed (`reqwest` or
      response parsing), or an `AnkiConnectError` was raised. */
  datatype CallError =
    | Transport(detail: string)
    | Anki(error: AnkiConnectError)
}
