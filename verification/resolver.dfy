/** The acceptance gate of `GetPublicIP` (main.go:79-91). The HTTP request to
    the echo service, the regular expression that extracts dotted-quad-shaped
    substrings, and `net.ParseIP` are outside the model: the body and the list
    of matches arrive as inputs, and parsing is a partial function parameter. */
module Resolver {
  import opened Results
  import opened Ipv4

  /** The three ways the gate refuses a response, each carrying the text the
      Go error message quotes. */
  datatype ResolveError =
    | AmbiguousResponse(body: string)   // "couldnt parse response: <body>"
    | UnparseableAddress(text: string)  // "couldnt parse IP <text>"
    | PrivateAddress(text: string)      // "<text> is a private IP"

  /** Accept the response only when the pattern matched exactly once, the match
      parses, and the parsed address is public. */
  function ResolvePublicAddress(body: string, matches: seq<string>, parse: string -> Option<Address>)
    : (r: Result<Address, ResolveError>)
    ensures r.Ok? <==> |matches| == 1 && parse(matches[0]).Some? && IsPublic(parse(matches[0]).value)
    ensures r.Ok? ==> parse(matches[0]) == Some(r.value) && IsPublic(r.value)
    ensures r == Err(AmbiguousResponse(body)) <==> |matches| != 1
    ensures r.Err? && r.error.UnparseableAddress? <==> |matches| == 1 && parse(matches[0]).None?
    ensures r.Err? && r.error.PrivateAddress? <==>
              |matches| == 1 && parse(matches[0]).Some? && !IsPublic(parse(matches[0]).value)
    ensures r.Err? && !r.error.AmbiguousResponse? ==> r.error.text == matches[0]
  {
    if |matches| != 1 then Err(AmbiguousResponse(body))
    else
      var text := matches[0];
      match parse(text)
      case None => Err(UnparseableAddress(text))
      case Some(ip) => if !IsPublic(ip) then Err(PrivateAddress(text)) else Ok(ip)
  }

  /** Whatever the gate returns is an address the classification accepts, so a
      private, loopback or link-local address is never handed on. */
  lemma ResolvedAddressOutsideRejectedBlocks(body: string, matches: seq<string>, parse: string -> Option<Address>)
    requires ResolvePublicAddress(body, matches, parse).Ok?
    ensures !InAnyRejectedBlock(ResolvePublicAddress(body, matches, parse).value)
  {
    IsPublicIffOutsideRejectedBlocks(ResolvePublicAddress(body, matches, parse).value);
  }

  /** The echo page "Current IP Address: 10.0.0.5" is refused as private, for
      any parser that reads "10.0.0.5" as that address. */
  lemma PrivateEchoRejected(parse: string -> Option<Address>)
    requires parse("10.0.0.5") == Some(Address(10, 0, 0, 5))
    ensures ResolvePublicAddress("Current IP Address: 10.0.0.5", ["10.0.0.5"], parse)
            == Err(PrivateAddress("10.0.0.5"))
  {
  }
}
