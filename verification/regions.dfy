/** The Riot routing tables and the URL builders of the configuration
    (js/config/constants.js). */
module Regions {
  import opened Text

  /** Platform routing value of each region code (summoner and league calls). */
  const Platforms: map<string, string> := map[
    "VN2" := "vn2", "BR1" := "br1", "EUN1" := "eun1", "EUW1" := "euw1",
    "JP1" := "jp1", "KR" := "kr", "LA1" := "la1", "LA2" := "la2",
    "NA1" := "na1", "OC1" := "oc1", "PH2" := "ph2", "RU" := "ru",
    "SG2" := "sg2", "TH2" := "th2", "TR1" := "tr1", "TW2" := "tw2"
  ]

  /** Regional routing value of each region code (account and match calls). */
  const Regionals: map<string, string> := map[
    "VN2" := "asia", "PH2" := "asia", "SG2" := "asia", "TH2" := "asia",
    "TW2" := "asia", "BR1" := "americas", "LA1" := "americas", "LA2" := "americas",
    "NA1" := "americas", "OC1" := "americas", "EUN1" := "europe", "EUW1" := "europe",
    "RU" := "europe", "TR1" := "europe", "JP1" := "asia", "KR" := "asia"
  ]

  const RegionCodes: set<string> := {
    "VN2", "BR1", "EUN1", "EUW1", "JP1", "KR", "LA1", "LA2",
    "NA1", "OC1", "PH2", "RU", "SG2", "TH2", "TR1", "TW2"
  }

  const RiotHostSuffix := ".api.riotgames.com"
  const ApiBaseUrl := "https://api.metatft.com/public/profile"
  const CurrentTftSet := "TFTSet16"
  const LookupPrefix := ApiBaseUrl + "/lookup_by_riotid/"
  const LookupQuery := "?source=full_profile&tft_set=" + CurrentTftSet

  /** `table[key] || fallback`: a missing key or an empty value gives the fallback. */
  function LookupOr(table: map<string, string>, key: string, fallback: string): (r: string)
    ensures key in table && table[key] != "" ==> r == table[key]
    ensures (key !in table || table[key] == "") ==> r == fallback
  {
    if key in table && table[key] != "" then table[key] else fallback
  }

  /** The platform routing value of `region`, the lower-cased code when unknown. */
  function PlatformRoute(region: string): string {
    LookupOr(Platforms, region, ToLower(region))
  }

  /** The regional routing value of `region`, `sea` when unknown. */
  function RegionalRoute(region: string): string {
    LookupOr(Regionals, region, "sea")
  }

  function HostUrl(route: string): string {
    "https://" + route + RiotHostSuffix
  }

  /** `buildRiotPlatformUrl`: whatever the table says, the host is the
      lower-cased region code's. */
  function BuildRiotPlatformUrl(region: string, endpoint: string): (url: string)
    ensures url == "https://" + ToLower(region) + ".api.riotgames.com" + endpoint
  {
    PlatformRouteIsLower(region);
    HostUrl(PlatformRoute(region)) + endpoint
  }

  /** `buildRiotRegionalUrl`: the host of the region's group, `sea` for an
      unknown region code. */
  function BuildRiotRegionalUrl(region: string, endpoint: string): (url: string)
    ensures region in Regionals ==> url == "https://" + Regionals[region] + ".api.riotgames.com" + endpoint
    ensures region !in Regionals ==> url == "https://sea.api.riotgames.com" + endpoint
  {
    HostUrl(RegionalRoute(region)) + endpoint
  }

  /** A player entry of the roster: the region code, the game name as already
      percent-encoded text, the tag line, and the display name keying stores. */
  datatype Ign = Ign(region: string, gameName: string, tagLine: string, displayName: string)

  /** `buildApiUrl`: the stats-API lookup URL of a player. */
  function BuildApiUrl(ign: Ign): (url: string)
    ensures StartsWith(url, LookupPrefix)
    ensures |url| >= |LookupPrefix| + |LookupQuery| && url[|url| - |LookupQuery|..] == LookupQuery
  {
    var middle := ign.region + "/" + ign.gameName + "/" + ign.tagLine;
    var url := LookupPrefix + middle + LookupQuery;
    assert url == LookupPrefix + ign.region + "/" + ign.gameName + "/" + ign.tagLine + LookupQuery;
    assert url[..|LookupPrefix|] == LookupPrefix;
    assert url[|url| - |LookupQuery|..] == LookupQuery;
    url
  }

  // ---------------------------------------------------------------------------
  // Properties of the tables
  // ---------------------------------------------------------------------------

  /** Both tables cover exactly the same sixteen region codes. */
  lemma TablesShareKeys()
    ensures Platforms.Keys == RegionCodes
    ensures Regionals.Keys == RegionCodes
  {
  }

  /** Each platform value is its own key in lower case. */
  lemma PlatformIsLowerKey(region: string)
    requires region in Platforms
    ensures Platforms[region] == ToLower(region)
    ensures Platforms[region] != ""
  {
  }

  /** The regional table groups the codes into three continents. */
  lemma RegionalGroups(region: string)
    requires region in Regionals
    ensures Regionals[region] == "asia" <==> region in {"VN2", "PH2", "SG2", "TH2", "TW2", "JP1", "KR"}
    ensures Regionals[region] == "americas" <==> region in {"BR1", "LA1", "LA2", "NA1", "OC1"}
    ensures Regionals[region] == "europe" <==> region in {"EUN1", "EUW1", "RU", "TR1"}
  {
  }

  /** The platform route of ANY region is its lower-cased code: the table only
      repeats what the fallback would compute. */
  lemma PlatformRouteIsLower(region: string)
    ensures PlatformRoute(region) == ToLower(region)
  {
    if region in Platforms {
      PlatformIsLowerKey(region);
    }
  }

  /** Every route value (either table, or either fallback for a code without
      capitals, slashes or question marks) has no capitals, no `/` and no `?`. */
  lemma RegionalRouteClean(region: string)
    ensures NoUpper(RegionalRoute(region))
    ensures '/' !in RegionalRoute(region) && '?' !in RegionalRoute(region)
    ensures RegionalRoute(region) != ""
  {
  }

  lemma PlatformRouteClean(region: string)
    requires '/' !in region && '?' !in region
    ensures NoUpper(PlatformRoute(region))
    ensures '/' !in PlatformRoute(region) && '?' !in PlatformRoute(region)
    ensures region != "" ==> PlatformRoute(region) != ""
  {
    PlatformRouteIsLower(region);
    var r := ToLower(region);
    forall i | 0 <= i < |r|
      ensures r[i] != '/' && r[i] != '?'
    {
      assert region[i] != '/' && region[i] != '?';
    }
  }

  /** Three `/`-free parts joined by `/` split back into the three parts. */
  lemma SplitThree(a: string, b: string, c: string)
    requires '/' !in a && '/' !in b && '/' !in c
    ensures Split(a + "/" + b + "/" + c, '/') == [a, b, c]
  {
    var tail := b + ['/'] + c;
    assert a + "/" + b + "/" + c == a + ['/'] + tail;
    SplitAtFirst(a, '/', tail);
    SplitAtFirst(b, '/', c);
    SplitNoSeparator(c, '/');
  }

  lemma SliceMiddle(p: string, m: string, q: string)
    ensures var u := p + m + q;
      && |u| >= |p| + |q|
      && u[..|p|] == p
      && u[|u| - |q|..] == q
      && u[|p|..|u| - |q|] == m
  {
  }

  /** The stats-API URL: the fixed lookup prefix, then region, game name and tag
      separated by `/`, then the fixed query. When the three parts contain no `/`,
      splitting the part between prefix and query on `/` recovers each of them
      verbatim. */
  lemma ApiUrlRecoversParts(ign: Ign)
    requires '/' !in ign.region && '/' !in ign.gameName && '/' !in ign.tagLine
    ensures var url := BuildApiUrl(ign);
      && StartsWith(url, LookupPrefix)
      && |url| >= |LookupPrefix| + |LookupQuery|
      && url[|url| - |LookupQuery|..] == LookupQuery
      && Split(url[|LookupPrefix|..|url| - |LookupQuery|], '/') == [ign.region, ign.gameName, ign.tagLine]
  {
    var middle := ign.region + "/" + ign.gameName + "/" + ign.tagLine;
    assert BuildApiUrl(ign) == LookupPrefix + middle + LookupQuery;
    SliceMiddle(LookupPrefix, middle, LookupQuery);
    SplitThree(ign.region, ign.gameName, ign.tagLine);
  }
}
