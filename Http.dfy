/** The parts of an HTTP request and response that the core reads or builds. */
module Http {
  import opened Wrappers
  import Strings

  /**
   * An inbound request. `fullUrl` is the URL as received, query string included;
   * `queryKeys` are the parameter names PHP's `parse_str` finds in that query
   * string; `all` is the request input (body merged with query) as Laravel's
   * `all()` returns it; `headers` is keyed by header names normalised as
   * `HeaderKey` does, which is how the header bag stores them.
   */
  datatype Request = Request(
    fullUrl: string,
    queryKeys: set<string>,
    all: map<string, string>,
    headers: map<string, string>)

  /** A response: status and a JSON body of string fields. */
  datatype Response = Response(status: int, body: map<string, string>)

  /** The header bag's key for a header name: upper-case ASCII letters become
      lower-case and `_` becomes `-`; every other character is kept. */
  function HeaderKey(name: string): (r: string)
    ensures |r| == |name|
    ensures '_' !in r && Strings.IsLowerCase(r)
    ensures forall i :: 0 <= i < |name| && name[i] == '_' ==> r[i] == '-'
    ensures forall i :: 0 <= i < |name| && name[i] != '_' ==> r[i] == Strings.LowerChar(name[i])
  {
    seq(|name|, i requires 0 <= i < |name| => if name[i] == '_' then '-' else Strings.LowerChar(name[i]))
  }

  /** `$request->header($name)`: names that normalise to the same key find the same
      header; an absent header reads null. */
  function Header(request: Request, name: string): (r: Option<string>)
    ensures r.Some? <==> HeaderKey(name) in request.headers
    ensures r.Some? ==> r.value == request.headers[HeaderKey(name)]
  {
    var k := HeaderKey(name);
    if k in request.headers then Some(request.headers[k]) else None
  }

  /** The header the package reads is found under any spelling that differs only
      in case or in `_` for `-`. */
  lemma SignatureHeaderSpellings(request: Request)
    ensures Header(request, "X_Twilio_Signature") == Header(request, "x-twilio-signature")
         == Header(request, "X-Twilio-Signature")
  {
    assert HeaderKey("X_Twilio_Signature") == "x-twilio-signature";
    assert HeaderKey("x-twilio-signature") == "x-twilio-signature";
    assert HeaderKey("X-Twilio-Signature") == "x-twilio-signature";
  }
}
