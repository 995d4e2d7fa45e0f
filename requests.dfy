/** The value objects of the client package: one probe request and the summary kept of its response. */
module Requests {

  /** One probe: the target base URL and the word-list entry probed under it (the source calls it the subdomain). */
  datatype Request = Request(url: string, subdomain: string)

  /** What the prober keeps of one HTTP exchange: status code, body size in bytes and the probed segment. */
  datatype Response = Response(statusCode: int, bodyLength: int, subdomain: string)

  /** The request meant for a word list without data: only the URL is set. */
  function EmptyRequest(url: string): (r: Request)
    ensures r.url == url && r.subdomain == ""
    ensures !IsValid(r)
  {
    Request(url, "")
  }

  /** A request can reach an endpoint only when it names a path segment. */
  predicate IsValid(req: Request)
    ensures IsValid(req) <==> |req.subdomain| > 0
  {
    if req.subdomain == "" then false else true
  }

  /**
   * The address a request is sent to: URL, "/", segment. The definition is known only through
   * its test, which has a segment; for a request without one nothing is claimed, and the body's
   * bare URL there is only a placeholder value.
   */
  function ToString(req: Request): (target: string)
    ensures IsValid(req) ==> |target| == |req.url| + 1 + |req.subdomain|
    ensures IsValid(req) ==> target[..|req.url|] == req.url && target[|req.url|] == '/'
    ensures IsValid(req) ==> target[|req.url| + 1..] == req.subdomain
  {
    if req.subdomain == "" then req.url else req.url + "/" + req.subdomain
  }

  /** For a fixed base URL the target determines the probed segment, so no two words share a target. */
  lemma TargetDeterminesRequest(a: Request, b: Request)
    requires a.url == b.url && IsValid(a) && IsValid(b)
    requires ToString(a) == ToString(b)
    ensures a == b
  {
    var n := |a.url| + 1;
    assert a.subdomain == ToString(a)[n..] == ToString(b)[n..] == b.subdomain;
  }

  /** The example from the request test: a URL and the segment "banana". */
  lemma ToStringOfBanana()
    ensures ToString(Request("http://example.com", "banana")) == "http://example.com/banana"
  {
  }
}
