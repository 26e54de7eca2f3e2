/** The CORS filter: three fixed response headers on every request, and the `OPTIONS`
    preflight answered with 204 before any routing. */
module Cors {
  import opened Wrappers
  import opened Http

  const AllowOrigin := "Access-Control-Allow-Origin"
  const AllowMethods := "Access-Control-Allow-Methods"
  const AllowHeaders := "Access-Control-Allow-Headers"

  const CorsHeaders: map<string, string> :=
    map[AllowOrigin := "*", AllowMethods := "GET, POST, PATCH, DELETE, OPTIONS", AllowHeaders := "Content-Type"]

  /** The header map after the three `setHeader` calls: the CORS values are present,
      every other header is as it was, and nothing else is added. */
  function WithCors(h: map<string, string>): (r: map<string, string>)
    ensures r.Keys == h.Keys + CorsHeaders.Keys
    ensures r[AllowOrigin] == "*"
    ensures r[AllowMethods] == "GET, POST, PATCH, DELETE, OPTIONS"
    ensures r[AllowHeaders] == "Content-Type"
    ensures forall k :: k in h && k !in CorsHeaders ==> r[k] == h[k]
  {
    h[AllowOrigin := "*"][AllowMethods := "GET, POST, PATCH, DELETE, OPTIONS"][AllowHeaders := "Content-Type"]
  }

  /** Applying the headers a second time changes nothing. */
  lemma WithCorsIdempotent(h: map<string, string>)
    ensures WithCors(WithCors(h)) == WithCors(h)
  {
  }

  /** Headers merged in later that set no CORS header leave the three CORS values as they are. */
  lemma MergeKeepsCors(h: map<string, string>, later: map<string, string>)
    requires forall k :: k in CorsHeaders ==> k !in later
    ensures var m := WithCors(h) + later;
      && m[AllowOrigin] == "*"
      && m[AllowMethods] == "GET, POST, PATCH, DELETE, OPTIONS"
      && m[AllowHeaders] == "Content-Type"
  {
    assert AllowOrigin in CorsHeaders && AllowMethods in CorsHeaders && AllowHeaders in CorsHeaders;
  }

  /** `applyCors(res)`. */
  method ApplyCors(res: ServerResponse)
    modifies res
    ensures res.headers == WithCors(old(res.headers)) && res.sent == old(res.sent)
  {
    res.SetHeader(AllowOrigin, "*");
    res.SetHeader(AllowMethods, "GET, POST, PATCH, DELETE, OPTIONS");
    res.SetHeader(AllowHeaders, "Content-Type");
  }

  /** `handlePreflight(req, res)`: an `OPTIONS` request is answered at once with 204 and
      no body; any other request is left untouched and `false` is returned. */
  method HandlePreflight(verb: Option<string>, res: ServerResponse) returns (handled: bool)
    requires res.sent == None
    modifies res
    ensures handled <==> verb == Some("OPTIONS")
    ensures handled ==> res.sent == Some(Response(204, old(res.headers), Empty))
    ensures !handled ==> res.sent == None
    ensures res.headers == old(res.headers)
  {
    if verb == Some("OPTIONS") {
      assert res.headers + NoContent.headers == res.headers;
      res.Send(NoContent);
      return true;
    }
    return false;
  }
}
