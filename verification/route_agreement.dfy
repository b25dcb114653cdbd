/** The browser side and the relay side of Riot routing agree: a URL built by
    `buildProxyUrl` and rewritten by the relay reaches the same upstream URL
    that `buildRiotRegionalUrl` / `buildRiotPlatformUrl` would call directly. */
module RouteAgreement {
  import opened Wrappers
  import opened Text
  import opened Regions
  import opened Routing
  import opened Proxy

  const Origin := "http://localhost:3001"

  /** An endpoint as the Riot service writes them: `/`, a path without `?`, and
      at most one query. */
  function Endpoint(path: string, query: Option<string>): string {
    "/" + path + (if query.Some? then "?" + query.value else "")
  }

  function DirectUrl(region: string, endpoint: string, isRegional: bool): (url: string)
    ensures url == HostUrl(Route(region, isRegional)) + endpoint
  {
    if isRegional then BuildRiotRegionalUrl(region, endpoint) else BuildRiotPlatformUrl(region, endpoint)
  }

  lemma ProxyBaseSplits()
    ensures ProxyBaseUrl + "/" == Origin + RoutePrefix
  {
  }

  /** The route segment of a usable region code is clean: non-empty, without
      `/`, `?` or capitals. */
  lemma RouteClean(region: string, isRegional: bool)
    requires region != "" && '/' !in region && '?' !in region
    ensures var route := Route(region, isRegional);
      route != "" && '/' !in route && '?' !in route && NoUpper(route)
  {
    RegionalRouteClean(region);
    PlatformRouteClean(region);
  }

  /** The query part after a `?`-free path is what the relay forwards. */
  lemma SplitQuery(pathname: string, query: Option<string>)
    requires '?' !in pathname
    requires query.Some? ==> '?' !in query.value
    ensures var u := pathname + (if query.Some? then "?" + query.value else "");
      Pathname(u) == pathname && QuerySuffix(u) == (if query.Some? then "?" + query.value else "")
  {
    if query.Some? {
      assert pathname + ("?" + query.value) == pathname + "?" + query.value;
      QuerySuffixOfOneMark(pathname, query.value);
    } else {
      assert pathname + "" == pathname;
      PathnameNoMark(pathname);
    }
  }

  /** A path under the route prefix with a clean route segment matches the
      relay's route with that segment and the rest of the path. */
  lemma MatchRouteOf(u: string, route: string, path: string)
    requires route != "" && '/' !in route
    requires Pathname(u) == RoutePrefix + (route + "/" + path)
    ensures MatchRoute(u) == Some((route, path))
  {
    var rest := route + "/" + path;
    var pathname := RoutePrefix + rest;
    assert pathname[..|RoutePrefix|] == RoutePrefix;
    assert pathname[|RoutePrefix|..] == rest;
    assert rest == route + ['/'] + path;
    SplitAtFirst(route, '/', path);
    assert rest[|route| + 1..] == path;
  }

  lemma NotHealth(rest: string)
    ensures RoutePrefix + rest != "/health"
  {
    assert (RoutePrefix + rest)[1] == 'r';
  }

  /** What the relay receives as `req.url`, and how it matches the route. */
  lemma {:induction false} RelayParses(route: string, path: string, query: Option<string>)
    requires route != "" && '/' !in route && '?' !in route
    requires '?' !in path
    requires query.Some? ==> '?' !in query.value
    ensures var u := RoutePrefix + route + Endpoint(path, query);
      && Pathname(u) == RoutePrefix + (route + "/" + path)
      && QuerySuffix(u) == (if query.Some? then "?" + query.value else "")
      && MatchRoute(u) == Some((route, path))
      && Pathname(u) != "/health"
  {
    var rest := route + "/" + path;
    var pathname := RoutePrefix + rest;
    assert '?' !in RoutePrefix;
    assert '?' !in pathname;
    var u := RoutePrefix + route + Endpoint(path, query);
    assert u == pathname + (if query.Some? then "?" + query.value else "");
    SplitQuery(pathname, query);
    MatchRouteOf(u, route, path);
    NotHealth(rest);
  }

  /** The proxied URL is the relay's origin followed by the route prefix, the
      route segment and the endpoint. */
  lemma ProxyUrlParts(region: string, endpoint: string, isRegional: bool)
    ensures var url := BuildProxyUrl(region, endpoint, isRegional);
      && StartsWith(url, Origin)
      && url[|Origin|..] == RoutePrefix + Route(region, isRegional) + endpoint
  {
    var route := Route(region, isRegional);
    var url := BuildProxyUrl(region, endpoint, isRegional);
    ProxyBaseSplits();
    var served := RoutePrefix + route + endpoint;
    assert url == Origin + served;
    assert url[..|Origin|] == Origin;
    assert url[|Origin|..] == served;
  }

  /** For every usable region code (all sixteen table keys among them), the
      upstream URL the relay calls for a proxied request is the URL the
      configuration builds for a direct call. */
  lemma {:induction false} ProxyAgreesWithDirect<J>(
    region: string, isRegional: bool, path: string, query: Option<string>,
    verb: string, token: string, body: string, outcome: UpstreamOutcome<J>)
    requires region != "" && '/' !in region && '?' !in region
    requires '?' !in path
    requires query.Some? ==> '?' !in query.value
    requires token != ""
    ensures var url := BuildProxyUrl(region, Endpoint(path, query), isRegional);
      && StartsWith(url, Origin)
      && var x := Serve(HttpRequest(verb, url[|Origin|..], token, body), outcome);
      && x.Exchange? && x.upstream.Some?
      && x.upstream.value.url == DirectUrl(region, Endpoint(path, query), isRegional)
  {
    var endpoint := Endpoint(path, query);
    var route := Route(region, isRegional);
    RouteClean(region, isRegional);
    ProxyUrlParts(region, endpoint, isRegional);
    var served := RoutePrefix + route + endpoint;
    RelayParses(route, path, query);
    var req := HttpRequest(verb, served, token, body);
    var x := Serve(req, outcome);
    assert x == Forward(req, route, path, outcome);
    ToLowerOfLower(route);
    var tail := if query.Some? then "?" + query.value else "";
    SameUrl(route, path, tail);
    assert x.upstream.value.url == "https://" + route + ".api.riotgames.com/" + path + tail;
  }

  lemma SameUrl(route: string, path: string, tail: string)
    ensures "https://" + route + ".api.riotgames.com/" + path + tail
         == HostUrl(route) + ("/" + path + tail)
  {
  }

  /** Every key of the routing tables is a usable region code. */
  lemma TableKeysUsable(region: string)
    requires region in RegionCodes
    ensures region != "" && '/' !in region && '?' !in region
  {
  }
}
