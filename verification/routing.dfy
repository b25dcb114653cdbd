/** Where the browser sends each Riot call: `buildProxyUrl` of
    js/services/riotApi.js. */
module Routing {
  import opened Text
  import opened Regions

  const ProxyBaseUrl := "http://localhost:3001/riot-proxy"

  /** The source fixes `USE_PROXY` to true; the direct branch is kept to show
      that it agrees with the configuration's URL builders. */
  const UseProxy := true

  /** The routing value put in the URL: the regional route for account and
      match calls, the platform route otherwise. */
  function Route(region: string, isRegional: bool): string {
    if isRegional then RegionalRoute(region) else PlatformRoute(region)
  }

  function BuildUrl(useProxy: bool, region: string, endpoint: string, isRegional: bool): string {
    if useProxy then ProxyBaseUrl + "/" + Route(region, isRegional) + endpoint
    else HostUrl(Route(region, isRegional)) + endpoint
  }

  /** `buildProxyUrl(region, endpoint, isRegional)`. */
  function BuildProxyUrl(region: string, endpoint: string, isRegional: bool): (url: string)
    ensures url == "http://localhost:3001/riot-proxy/" + Route(region, isRegional) + endpoint
  {
    BuildUrl(UseProxy, region, endpoint, isRegional)
  }

  /** Regional calls go to the regional route of a known region and to `sea`
      otherwise; platform calls go to the lower-cased region code. */
  lemma ProxyRoutes(region: string, endpoint: string)
    ensures region in Regionals ==>
      BuildProxyUrl(region, endpoint, true) == "http://localhost:3001/riot-proxy/" + Regionals[region] + endpoint
    ensures region !in Regionals ==>
      BuildProxyUrl(region, endpoint, true) == "http://localhost:3001/riot-proxy/sea" + endpoint
    ensures BuildProxyUrl(region, endpoint, false) == "http://localhost:3001/riot-proxy/" + ToLower(region) + endpoint
  {
    PlatformRouteIsLower(region);
    if region !in Regionals {
      assert "http://localhost:3001/riot-proxy/" + "sea" + endpoint == "http://localhost:3001/riot-proxy/sea" + endpoint;
    }
  }

  /** With the proxy switched off, the URL is the one the configuration builds. */
  lemma DirectMatchesConfig(region: string, endpoint: string)
    ensures BuildUrl(false, region, endpoint, true) == BuildRiotRegionalUrl(region, endpoint)
    ensures BuildUrl(false, region, endpoint, false) == BuildRiotPlatformUrl(region, endpoint)
  {
  }
}
