/** The local relay of proxy-server.js as a pure function from an incoming
    request and the upstream outcome to the upstream request sent (if any) and
    the response returned. */
module Proxy {
  import opened Wrappers
  import opened Text

  const RoutePrefix := "/riot-proxy/"
  const MissingToken := "Missing X-Riot-Token header"
  const RegionalRoutes: seq<string> := ["sea", "americas", "europe", "asia"]
  const BodyMethods: seq<string> := ["POST", "PUT", "PATCH"]

  /** An incoming request: method (`verb`), `req.url` (path and query), the
      `x-riot-token` header (empty when absent) and the serialised JSON body. */
  datatype HttpRequest = HttpRequest(verb: string, url: string, token: string, body: string)

  /** The request the relay sends upstream. */
  datatype UpstreamRequest = UpstreamRequest(
    verb: string,
    url: string,
    token: string,
    accept: string,
    contentType: string,
    body: Option<string>)

  /** What happens upstream: the host cannot be reached, or it answers with a
      status, a body that may not parse as JSON, and two rate-limit headers. */
  datatype UpstreamOutcome<J> =
    | Unreachable(message: string)
    | Replied(status: int, json: Option<J>, rateLimitType: Option<string>, retryAfter: Option<string>)

  datatype ResponseBody<J> =
    | ErrorJson(error: string)
    | Relayed(json: J)
    | EmptyObject
    | HealthJson(status: string, message: string)

  datatype Response<J> = Response(
    status: int,
    body: ResponseBody<J>,
    rateLimitType: Option<string>,
    retryAfter: Option<string>)

  /** One exchange: the upstream request (none when the relay answered alone)
      and the response. `Unrouted` is a request no route of the relay matches. */
  datatype Exchange<J> = Exchange(upstream: Option<UpstreamRequest>, response: Response<J>) | Unrouted

  /** The part of `req.url` before the first `?`. */
  function Pathname(url: string): string {
    Split(url, '?')[0]
  }

  /** `req.url.includes('?') ? '?' + req.url.split('?')[1] : ''`: the text between
      the first and the second `?`. */
  function QuerySuffix(url: string): (q: string)
    ensures '?' !in url ==> q == ""
  {
    if '?' in url then
      var parts := Split(url, '?');
      if |parts| > 1 then "?" + parts[1] else "?"
    else ""
  }

  // The route `/riot-proxy/:region/*`: the region segment (non-empty) and the
  // rest of the path after it, taken verbatim.
  function MatchRoute(url: string): (m: Option<(string, string)>)
    ensures !StartsWith(Pathname(url), RoutePrefix) ==> m.None?
    ensures m.Some? ==>
      && m.value.0 != "" && '/' !in m.value.0
      && Pathname(url) == RoutePrefix + (m.value.0 + "/" + m.value.1)
  {
    var path := Pathname(url);
    if !StartsWith(path, RoutePrefix) then None
    else
      var rest := path[|RoutePrefix|..];
      var parts := Split(rest, '/');
      var region := parts[0];
      if region == "" || |region| == |rest| then None
      else
        assert |parts| > 1;
        assert rest == region + ['/'] + Join(parts[1..], '/');
        assert rest == region + "/" + rest[|region| + 1..];
        assert path == RoutePrefix + rest;
        Some((region, rest[|region| + 1..]))
  }

  /** `res.set(name, value)` sends `String(value)`: an upstream header that is
      absent (`null`) is relayed as the text `null`. */
  function HeaderText(v: Option<string>): (h: string)
    ensures v.Some? ==> h == v.value
    ensures v.None? ==> h == "null"
  {
    if v.Some? then v.value else "null"
  }

  /** The upstream host of a route segment. Both branches of the source give
      the same host. */
  function UpstreamBase(region: string): string {
    if ToLower(region) in RegionalRoutes then "https://" + ToLower(region) + ".api.riotgames.com"
    else "https://" + ToLower(region) + ".api.riotgames.com"
  }

  function TargetUrl(region: string, path: string, url: string): string {
    UpstreamBase(region) + "/" + path + QuerySuffix(url)
  }

  // The handler of `/riot-proxy/:region/*` given its route parameters.
  function Forward<J>(req: HttpRequest, region: string, path: string, outcome: UpstreamOutcome<J>): (x: Exchange<J>)
    ensures req.token == "" ==> x == Exchange(None, Response(401, ErrorJson(MissingToken), None, None))
    ensures req.token != "" ==> x.Exchange? && x.upstream.Some?
    ensures x.Exchange? && x.upstream.Some? ==>
      var up := x.upstream.value;
      && up.verb == req.verb
      && up.token == req.token
      && up.url == "https://" + ToLower(region) + ".api.riotgames.com/" + path + QuerySuffix(req.url)
      && (up.body.Some? <==> req.verb in BodyMethods)
      && (up.body.Some? ==> up.body.value == req.body)
  {
    if req.token == "" then Exchange(None, Response(401, ErrorJson(MissingToken), None, None))
    else
      var up := UpstreamRequest(
        req.verb, TargetUrl(region, path, req.url), req.token, "application/json", "application/json",
        if req.verb in BodyMethods then Some(req.body) else None);
      match outcome
      case Unreachable(message) => Exchange(Some(up), Response(500, ErrorJson(message), None, None))
      case Replied(status, json, rateLimitType, retryAfter) =>
        var body := if json.Some? then Relayed(json.value) else EmptyObject;
        Exchange(Some(up), Response(status, body, Some(HeaderText(rateLimitType)), Some(HeaderText(retryAfter))))
  }

  // The relay's routes: `GET /health`, and `/riot-proxy/:region/*` for every method.
  function Serve<J>(req: HttpRequest, outcome: UpstreamOutcome<J>): (x: Exchange<J>)
    ensures req.verb == "GET" && Pathname(req.url) == "/health" ==>
      x.Exchange? && x.upstream.None? && x.response.status == 200
    ensures req.verb == "GET" && Pathname(req.url) == "/health" ==>
      x.response.body == HealthJson("ok", "Riot API Proxy is running")
    ensures x.Exchange? && x.upstream.None? ==> x.response.status in {200, 401}
    ensures x.Exchange? && x.upstream.Some? ==> req.token != "" && MatchRoute(req.url).Some?
    ensures x.Unrouted? <==> !(req.verb == "GET" && Pathname(req.url) == "/health") && MatchRoute(req.url).None?
    ensures !(req.verb == "GET" && Pathname(req.url) == "/health") && MatchRoute(req.url).Some? ==>
      x == Forward(req, MatchRoute(req.url).value.0, MatchRoute(req.url).value.1, outcome)
  {
    if req.verb == "GET" && Pathname(req.url) == "/health" then
      Exchange(None, Response(200, HealthJson("ok", "Riot API Proxy is running"), None, None))
    else
      match MatchRoute(req.url)
      case None => Unrouted
      case Some((region, path)) => Forward(req, region, path, outcome)
  }

  // ---------------------------------------------------------------------------
  // Properties
  // ---------------------------------------------------------------------------

  /** Whether the route segment is a known regional route does not change the host. */
  lemma HostIgnoresRouteKind(region: string)
    ensures UpstreamBase(region) == "https://" + ToLower(region) + ".api.riotgames.com"
  {
  }

  /** The upstream status and JSON come back unchanged (an unparsable body as
      `{}`), with both rate-limit headers copied (an absent one as the text
      `null`); an unreachable host gives 500 and its error message. */
  lemma RelaysUpstream<J>(req: HttpRequest, region: string, path: string, outcome: UpstreamOutcome<J>)
    requires req.token != ""
    ensures var r := Forward(req, region, path, outcome).response;
      (match outcome
       case Unreachable(m) => r == Response(500, ErrorJson(m), None, None)
       case Replied(status, json, rlt, ra) =>
         && r.status == status
         && (rlt.Some? ==> r.rateLimitType == rlt) && (rlt.None? ==> r.rateLimitType == Some("null"))
         && (ra.Some? ==> r.retryAfter == ra) && (ra.None? ==> r.retryAfter == Some("null"))
         && (json.Some? ==> r.body == Relayed(json.value))
         && (json.None? ==> r.body == EmptyObject))
  {
  }

  /** The query forwarded is exactly the one of the incoming URL when that URL
      has at most one `?`. */
  lemma QuerySuffixOfOneMark(p: string, q: string)
    requires '?' !in p && '?' !in q
    ensures QuerySuffix(p + "?" + q) == "?" + q
    ensures Pathname(p + "?" + q) == p
  {
    assert p + "?" + q == p + ['?'] + q;
    SplitAtFirst(p, '?', q);
    SplitNoSeparator(q, '?');
    assert (p + "?" + q)[|p|] == '?';
  }

  lemma PathnameNoMark(p: string)
    requires '?' !in p
    ensures Pathname(p) == p
    ensures QuerySuffix(p) == ""
  {
    SplitNoSeparator(p, '?');
  }

  /** Text after a second `?` is dropped from the forwarded query. */
  lemma QuerySuffixDropsSecondPart(p: string, q1: string, q2: string)
    requires '?' !in p && '?' !in q1
    ensures QuerySuffix(p + "?" + q1 + "?" + q2) == "?" + q1
  {
    var u := p + "?" + q1 + "?" + q2;
    assert u == p + ['?'] + (q1 + ['?'] + q2);
    SplitAtFirst(p, '?', q1 + ['?'] + q2);
    SplitAtFirst(q1, '?', q2);
    assert u[|p|] == '?';
  }
}
