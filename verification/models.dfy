/** The protocol the client talks to the server with, and a stored login token. */
module Models {
  import opened Wrappers
  import opened Strings

  datatype Protocol = Http | Https

  /** `Protocol::default()`. */
  const DefaultProtocol: Protocol := Https

  /** `Display`. */
  function ProtocolName(p: Protocol): (s: string)
    ensures s == Lower(s)
    ensures |s| == (if p == Http then 4 else 5)
  {
    var s := if p == Http then "http" else "https";
    assert s == Lower(s);
    s
  }

  /** The message of a protocol text that is neither `http` nor `https`. */
  function InvalidProtocolMessage(s: string): string {
    "Invalid protocol: " + s + ". Use 'http' or 'https'."
  }

  /** `Protocol::from_str`: the text lower-cased must be `http` or `https`. */
  function ParseProtocol(s: string): (r: Result<Protocol, string>)
    ensures r == Success(Http) <==> Lower(s) == ProtocolName(Http)
    ensures r == Success(Https) <==> Lower(s) == ProtocolName(Https)
    ensures r.Failure? <==> Lower(s) != ProtocolName(Http) && Lower(s) != ProtocolName(Https)
    ensures r.Failure? ==> r.error == InvalidProtocolMessage(s)
  {
    var lowered := Lower(s);
    if lowered == "http" then Success(Http)
    else if lowered == "https" then Success(Https)
    else Failure(InvalidProtocolMessage(s))
  }

  /** Lower-casing an already lower-cased text changes nothing. */
  lemma LowerIdempotent(s: string)
    ensures Lower(Lower(s)) == Lower(s)
  {
    assert forall i :: 0 <= i < |s| ==> LowerChar(LowerChar(s[i])) == LowerChar(s[i]);
  }

  /** Parsing is blind to case: a text parses exactly as its lower-cased form does. */
  lemma ParseIgnoresCase(s: string)
    ensures ParseProtocol(s).Success? <==> ParseProtocol(Lower(s)).Success?
    ensures ParseProtocol(s).Success? ==> ParseProtocol(Lower(s)) == ParseProtocol(s)
  {
    LowerIdempotent(s);
  }

  /** The displayed name parses back to the same protocol. */
  lemma ParseDisplayed(p: Protocol)
    ensures ParseProtocol(ProtocolName(p)) == Success(p)
  {
    var s := ProtocolName(p);
    assert Lower(s) == s;
  }

  /** A stored token: which server and user it belongs to, and the token itself. */
  datatype TokenEntry = TokenEntry(hostname: string, username: string, token: string)
}
