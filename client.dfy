/**
 * The requester of the client package: its configuration defaults, the HTTP method allow-list,
 * and how one HTTP exchange is turned into a Response and a printed result line.
 * The exchange itself (net/http) is an input: the Outcome it produced.
 */
module Client {

  import opened Wrappers
  import opened Ascii
  import opened Requests

  /** time.Duration counts nanoseconds. */
  const Second: int := 1_000_000_000
  const DefaultTimeout: int := 10 * Second
  const DefaultMethod: string := "GET"

  /** Shared, read-only request policy. */
  datatype Requester = Requester(timeout: int, httpMethod: string, headers: map<string, string>, onlyOutputFailure: bool)

  /** Errors the client can produce. */
  datatype ClientError =
    | InvalidMethod(httpMethod: string)
    | CreateRequestFailed
    | DeadlineExceeded
    | SendFailed
    | ReadBodyFailed

  /** What the HTTP library did with a well-formed request. */
  datatype Outcome =
    | Ok(status: int, bodyLen: nat)  // a response arrived and its body was read in full
    | Deadline                      // the client timeout fired while awaiting the response or reading its body
    | BuildError                    // http.NewRequest refused the method or the target
    | SendError                     // any other failure of client.Do
    | ReadError                     // reading the response body failed for any reason but the timeout

  /** The one HTTP call issued: method, target address and the headers set on it. */
  datatype HttpCall = HttpCall(httpMethod: string, target: string, headers: map<string, string>)

  /** Result of sendRequest: body length, status, error, and the call it made if any. */
  datatype Sent = Sent(bodyLength: int, statusCode: int, err: Option<ClientError>, call: Option<HttpCall>)

  /** Result of MakeRequest: the response, the error handed back, the call made and the line printed. */
  datatype Made = Made(response: Response, err: Option<ClientError>, call: Option<HttpCall>, shown: Option<Response>)

  /** The methods of section 9.3 of RFC 9110. */
  const Rfc9110Methods: set<string> := {"GET", "HEAD", "POST", "PUT", "DELETE", "CONNECT", "OPTIONS", "TRACE"}

  /** The method added by RFC 5789. */
  const PatchMethod: string := "PATCH"

  /** The allow-list as the source writes it: a map from method name to true. */
  const ValidMethods: map<string, bool> := map[
    "GET" := true, "HEAD" := true, "POST" := true, "PUT" := true, "PATCH" := true,
    "DELETE" := true, "CONNECT" := true, "OPTIONS" := true, "TRACE" := true]

  /**
   * A zero timeout or an empty method makes both fields fall back to their defaults;
   * otherwise everything is copied. Headers and the failures-only flag are always kept.
   */
  function NewRequester(timeout: int, httpMethod: string, headers: map<string, string>, onlyFailure: bool): (r: Requester)
    ensures r.headers == headers && r.onlyOutputFailure == onlyFailure
    ensures timeout == 0 || httpMethod == "" ==> r.timeout == DefaultTimeout && r.httpMethod == DefaultMethod
    ensures timeout != 0 && httpMethod != "" ==> r.timeout == timeout && r.httpMethod == httpMethod
    ensures r.timeout != 0 && r.httpMethod != ""
  {
    if timeout == 0 || httpMethod == "" then
      Requester(DefaultTimeout, DefaultMethod, headers, onlyFailure)
    else
      Requester(timeout, httpMethod, headers, onlyFailure)
  }

  /** A requester built by NewRequester is a fixed point: rebuilding it from its own fields changes nothing. */
  lemma NewRequesterIsIdempotent(timeout: int, httpMethod: string, headers: map<string, string>, onlyFailure: bool)
    ensures var r := NewRequester(timeout, httpMethod, headers, onlyFailure);
      NewRequester(r.timeout, r.httpMethod, r.headers, r.onlyOutputFailure) == r
  {
  }

  /** The defaulting repairs an empty method but never an unknown one. */
  lemma NewRequesterMethodValidity(timeout: int, httpMethod: string, headers: map<string, string>, onlyFailure: bool)
    ensures IsValidHTTPMethod(NewRequester(timeout, httpMethod, headers, onlyFailure).httpMethod).valid
        <==> timeout == 0 || httpMethod == "" || IsValidHTTPMethod(httpMethod).valid
  {
    assert DefaultMethod in Rfc9110Methods;
  }

  datatype Validity = Validity(valid: bool, err: Option<ClientError>)

  /** Exact, case-sensitive lookup in the allow-list; an error exactly when the lookup fails. */
  function IsValidHTTPMethod(httpMethod: string): (v: Validity)
    ensures v.valid <==> httpMethod in Rfc9110Methods + {PatchMethod}
    ensures v.err.Some? <==> !v.valid
    ensures !v.valid ==> v.err == Some(InvalidMethod(httpMethod))
  {
    var known := httpMethod in ValidMethods && ValidMethods[httpMethod];
    if !known then Validity(false, Some(InvalidMethod(httpMethod))) else Validity(true, None)
  }

  /** Every allowed method is a non-empty run of upper-case letters. */
  lemma ValidMethodsAreUpperCase(httpMethod: string)
    ensures IsValidHTTPMethod(httpMethod).valid ==>
      |httpMethod| > 0 && forall i :: 0 <= i < |httpMethod| ==> IsUpper(httpMethod[i])
  {
  }

  /** Matching is case-sensitive: the lower-case spelling of an allowed method is a different, refused method. */
  lemma MethodMatchIsCaseSensitive(httpMethod: string)
    requires IsValidHTTPMethod(httpMethod).valid
    ensures LowerString(httpMethod) != httpMethod
    ensures !IsValidHTTPMethod(LowerString(httpMethod)).valid
  {
    ValidMethodsAreUpperCase(httpMethod);
    var lower := LowerString(httpMethod);
    assert lower[0] != httpMethod[0];
    assert !IsUpper(lower[0]);
    ValidMethodsAreUpperCase(lower);
  }

  /** sendRequest: validate the method, then map the exchange's outcome to (body length, status, error). */
  function SendRequest(r: Requester, request: Request, outcome: Outcome): (s: Sent)
    ensures !IsValidHTTPMethod(r.httpMethod).valid ==> s == Sent(0, 400, Some(InvalidMethod(r.httpMethod)), None)
    ensures s.err.Some? ==> s.bodyLength == 0 && s.statusCode == 400
    ensures s.err.None? <==> IsValidHTTPMethod(r.httpMethod).valid && outcome.Ok?
    ensures s.err.None? ==> s.bodyLength == outcome.bodyLen && s.statusCode == outcome.status
    ensures s.err == Some(DeadlineExceeded) <==> IsValidHTTPMethod(r.httpMethod).valid && outcome.Deadline?
    ensures s.call.Some? <==> IsValidHTTPMethod(r.httpMethod).valid && !outcome.BuildError?
    ensures s.call.Some? ==> s.call.value == HttpCall(r.httpMethod, ToString(request), r.headers)
  {
    var check := IsValidHTTPMethod(r.httpMethod);
    if check.valid then
      var call := HttpCall(r.httpMethod, ToString(request), r.headers);
      match outcome
      case BuildError => Sent(0, 400, Some(CreateRequestFailed), None)
      case Deadline => Sent(0, 400, Some(DeadlineExceeded), Some(call))
      case SendError => Sent(0, 400, Some(SendFailed), Some(call))
      case ReadError => Sent(0, 400, Some(ReadBodyFailed), Some(call))
      case Ok(status, bodyLen) => Sent(bodyLen, status, None, Some(call))
    else
      Sent(0, 400, check.err, None)
  }

  /** Go's integer division, which truncates toward zero. */
  function TruncDiv(a: int, d: int): (q: int)
    requires d > 0
    ensures a >= 0 ==> q == a / d && 0 <= a - q * d < d
    ensures a < 0 ==> q == -((-a) / d) && -d < a - q * d <= 0
  {
    if a >= 0 then a / d else -((-a) / d)
  }

  /** Whether a result line is printed: always, or in failures-only mode only for a status outside 2xx. */
  function ShouldPrint(onlyFailure: bool, status: int): (printed: bool)
    ensures printed <==> !onlyFailure || !(200 <= status < 300)
  {
    if onlyFailure && TruncDiv(status, 100) != 2 then true
    else if !onlyFailure then true
    else false
  }

  /**
   * MakeRequest: a deadline yields 408 with no segment and the error; every other error is swallowed
   * into a 400 for the request's segment; success keeps the server's status and body length.
   */
  function MakeRequest(r: Requester, request: Request, outcome: Outcome): (m: Made)
    ensures m.err.Some? <==> IsValidHTTPMethod(r.httpMethod).valid && outcome.Deadline?
    ensures m.err.Some? ==> m.err == Some(DeadlineExceeded) && m.response == Response(408, 0, "") && m.shown.None?
    ensures m.err.None? ==> m.response.subdomain == request.subdomain
    ensures IsValidHTTPMethod(r.httpMethod).valid && outcome.Ok? ==>
      m.response == Response(outcome.status, outcome.bodyLen, request.subdomain)
    ensures !(IsValidHTTPMethod(r.httpMethod).valid && outcome.Ok?) && m.err.None? ==>
      m.response == Response(400, 0, request.subdomain)
    ensures m.call.Some? <==> IsValidHTTPMethod(r.httpMethod).valid && !outcome.BuildError?
    ensures m.call.Some? ==> m.call.value == HttpCall(r.httpMethod, ToString(request), r.headers)
    ensures m.shown.Some? <==> m.err.None? && (!r.onlyOutputFailure || !(200 <= m.response.statusCode < 300))
    ensures m.shown.Some? ==> m.shown.value == m.response
  {
    var sent := SendRequest(r, request, outcome);
    if sent.err.Some? && sent.err.value.DeadlineExceeded? then
      Made(Response(408, 0, ""), sent.err, sent.call, None)
    else
      var response := Response(sent.statusCode, sent.bodyLength, request.subdomain);
      var shown := if ShouldPrint(r.onlyOutputFailure, response.statusCode) then Some(response) else None;
      Made(response, None, sent.call, shown)
  }

  /**
   * An unknown method never reaches the network, whatever the network would have done; it is
   * reported as a 400 for the request's segment, printed in either mode, and no error is returned.
   */
  lemma InvalidMethodIsSwallowed(r: Requester, request: Request, outcome: Outcome)
    requires !IsValidHTTPMethod(r.httpMethod).valid
    ensures var response := Response(400, 0, request.subdomain);
      MakeRequest(r, request, outcome) == Made(response, None, None, Some(response))
  {
  }
}
