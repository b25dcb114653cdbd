# tft-rank-check in Dafny

A model of the deterministic core of tft-rank-check, a browser dashboard that
ranks a fixed roster of Teamfight Tactics players. It covers:

- **Riot pipeline** (`Rating`, `RiotFetch`, `RiotProfile`). This is the numeric
  rating ladder, the `riotFetch` status classification, and
  `getFullRiotProfile`. The pipeline is a pure function of the replies of the
  account, summoner, league, match-id and match-detail calls. It returns the
  `{success, data | error, ign}` envelope, the updated `riotProfileDataStore`,
  and the list of requests it sent.
- **Routing** (`Regions`, `Routing`, `Proxy`, `RouteAgreement`). This is the
  platform/regional tables and URL builders of `constants.js`, `buildProxyUrl`,
  and the Express relay of `proxy-server.js`. The relay is a function from
  (request, upstream outcome) to (upstream request, response). A cross-file
  lemma shows that a URL built by `buildProxyUrl` reaches the same upstream URL
  that the direct builder would use.
- **Batch view** (`MetaApi`, `Batch`, `StableSort`). This is `fetchProfile`,
  `calculateStats`, and the load-and-sort step of `loadAllProfiles`. That step
  is a stable sort, descending on rating, with failures keyed at -1.
- **Match history helpers** (`MatchView`). These are the asset names, placement
  classes and emoji, time-ago buckets, trait parsing and unit selection.
- **Shared helpers** (`Helpers`). These are the placement colours and quote
  escaping.
- **Analysis selection** (`Analysis`). This is the state machine over
  (current player, selected matches, mode) and what `startAnalysis` goes on to
  analyse.
- **Gemini derivations** (`Gemini`). This is the model-list filter, the
  extraction of text from a response, and the per-match fields derived by
  `buildPrompt`.

`Wrappers` holds `Option` and `Result`. `Text` holds the string operations the
source uses:

- `toLowerCase` on ASCII;
- `replace` with a string pattern;
- `split`;
- `includes`;
- `parseInt`;
- decimal printing.

## Modelling choices

- **Outside inputs become parameters.** The network, the clock, the API keys
  and the data-source setting are parameters. A remote call is modelled by its
  reply.
- **Opaque percent-encoding.** `encodeURIComponent` and `decodeURIComponent`
  are an opaque `UriCodec` parameter.
- **Two separate stores.** The stats-API store and the Riot store stay separate
  maps, as in the source. The analysis view reads only the first.
  `Analysis.RiotLoadNotAnalysable` states the consequence.
- **JavaScript semantics are written out:**
  - `||` treats `""`, `0` and `null` as absent;
  - `null` compares as 0 (`Helpers.Numeric`);
  - `String.replace` with a string pattern replaces the first occurrence only;
  - `Math.round` rounds halves up;
  - `Array.prototype.sort` is stable.
- **Apex tiers are not ordered.** The rating ladder does not order the apex
  tiers, so a MASTER player with LP ≥ 400 rates above a GRANDMASTER with 0 LP.
  `Rating.ApexTiersOverlap` states this, and no lemma claims an order across
  the apex tiers.

## Model

| member | source | states |
|---|---|---|
| Rating.RatingNumeric | js/services/riotApi.js:331-362 | apart from the league points the rating is a whole number of hundreds in 0..3600, at least 2800 exactly for MASTER, GRANDMASTER and CHALLENGER |
| Rating.TierBase | js/services/riotApi.js:332-343 | the ladder IRON…CHALLENGER has bases 400 apart starting at 0, and exactly MASTER and above are apex tiers |
| Rating.DivisionOffset | js/services/riotApi.js:345-350 | the divisions IV, III, II, I add 0, 100, 200, 300 |
| Rating.RatingBelowMaster | js/services/riotApi.js:352-361 | below MASTER, the rating is tier base + division offset + LP |
| Rating.RatingApex | js/services/riotApi.js:356-359 | for MASTER, GRANDMASTER and CHALLENGER, the rating is tier base + LP whatever the division |
| Rating.UnknownPartsRateZero | js/services/riotApi.js:352-354 | an unknown tier, an unknown division or a missing LP each contributes 0 |
| Rating.UnrankedRatesZero | js/services/riotApi.js:302-309 | the Unranked record and IRON IV 0 LP both rate 0 |
| Rating.MonotoneInPoints | js/services/riotApi.js:352-361 | below MASTER, the rating strictly increases with LP |
| Rating.MonotoneInDivision | js/services/riotApi.js:345-361 | below MASTER with LP in 0..99, a higher division always rates higher |
| Rating.BelowNextTier | js/services/riotApi.js:332-361 | below MASTER with LP in 0..99, every division rates below IV 0 LP of the next tier |
| Rating.ApexTiersOverlap | js/services/riotApi.js:357-359 | MASTER 500 LP rates above GRANDMASTER 0 LP: the apex tiers overlap |
| Regions.LookupOr | js/config/constants.js:126 | `TABLE[key] \|\| fallback`: the table value when present and non-empty, otherwise the fallback |
| Regions.TablesShareKeys | js/config/constants.js:78-115 | PLATFORMS and REGIONALS have the same 16 region codes as keys |
| Regions.PlatformIsLowerKey | js/config/constants.js:78-95 | every PLATFORMS value is the lower-case of its key |
| Regions.RegionalGroups | js/config/constants.js:97-115 | for each of asia, americas and europe, a region maps to it iff it is in the listed group |
| Regions.PlatformRouteIsLower | js/config/constants.js:126 | the platform route is the lower-cased region, whether or not the region is in the table |
| Regions.BuildRiotPlatformUrl | js/config/constants.js:125-128 | the platform URL is `https://` + lower-case region + `.api.riotgames.com` + endpoint, for known and unknown region codes alike |
| Regions.BuildRiotRegionalUrl | js/config/constants.js:137-140 | a known region code gets its group's host; an unknown one gets host `sea` |
| Regions.RegionalRouteClean | js/config/constants.js:97-138 | every regional route is non-empty, lower-case and free of `/` and `?` |
| Regions.PlatformRouteClean | js/config/constants.js:126 | the platform route of a region without `/` or `?` is lower-case and has neither character |
| Regions.ApiUrlRecoversParts | js/config/constants.js:148-150 | the stats-API URL is the lookup prefix, then region/gameName/tagLine (recoverable by splitting on `/`), then the fixed query naming TFTSet16 |
| Regions.BuildApiUrl | js/config/constants.js:148-150 | every stats-API URL starts with the lookup prefix and ends with the fixed query |
| Routing.BuildProxyUrl | js/services/riotApi.js:19-36 | the proxy URL is `http://localhost:3001/riot-proxy/` + route + endpoint |
| Routing.ProxyRoutes | js/services/riotApi.js:33-35 | a regional call routes to REGIONALS[region] or `sea`; a platform call routes to the lower-cased region |
| Routing.DirectMatchesConfig | js/services/riotApi.js:38-42 | the direct branch builds the same URLs as the regional and platform builders of the configuration |
| Proxy.QuerySuffix | proxy-server.js:46 | a URL without `?` contributes no query |
| Proxy.Forward | proxy-server.js:30-58 | without a token: 401 with the fixed message and no upstream call; otherwise one upstream request that keeps the method and token, goes to the lower-cased host + `/` + path + query, and has a body exactly for POST, PUT and PATCH |
| Proxy.Serve | proxy-server.js:18-27 | GET /health answers 200 with `{status: ok, message: Riot API Proxy is running}` and no upstream call; a routed request that is not the health check is handled by the forwarding route; only a routed request with a token goes upstream; with the exact matching of Express rules listed under Left out, a request is unrouted iff it is neither |
| Proxy.MatchRoute | proxy-server.js:27-29 | a match has a non-empty region segment without `/`, and the pathname is the route prefix, that segment, `/`, then the rest; a pathname outside the prefix never matches |
| Proxy.HostIgnoresRouteKind | proxy-server.js:37-44 | the upstream host is the same whether or not the route is one of the regional routes |
| Proxy.RelaysUpstream | proxy-server.js:61-71 | the upstream status is relayed; each rate-limit header is copied, an absent one as the text `null`; an unparsable body becomes `{}`; an unreachable host gives 500 with the message |
| Proxy.QuerySuffixOfOneMark | proxy-server.js:46 | with one `?`, the query after it is forwarded and the pathname is the part before it |
| Proxy.PathnameNoMark | proxy-server.js:46 | with no `?`, the pathname is the whole URL and no query is forwarded |
| Proxy.QuerySuffixDropsSecondPart | proxy-server.js:46 | only the text between the first and the second `?` is forwarded |
| RouteAgreement.RelayParses | proxy-server.js:27-46 | the relay parses a proxied URL back into the same route segment, path and query, and never mistakes it for /health |
| RouteAgreement.ProxyUrlParts | js/services/riotApi.js:36 | the proxy URL is the proxy origin followed by the relay route, route segment and endpoint |
| RouteAgreement.ProxyAgreesWithDirect | js/services/riotApi.js:30-42 | for a clean region, path and query, the relay forwards a `buildProxyUrl` URL to exactly the URL the direct builder gives |
| RouteAgreement.TableKeysUsable | js/config/constants.js:78-115 | every table key is non-empty and free of `/` and `?`, so the agreement lemma applies to every configured region |
| RiotFetch.Headers | js/services/riotApi.js:55-63 | headers are refused iff there is no key, with the fixed message; otherwise they carry the key |
| RiotFetch.StatusMessage | js/services/riotApi.js:79-95 | the fixed messages for 401, 403, 404 and 429; for 500, the CORS hint, the body's error or `Server error 500`; otherwise status.message, error or `HTTP error N` |
| RiotFetch.Fetch | js/services/riotApi.js:72-105 | with no key, an error and no request; with a key, exactly one request to the URL carrying the key and JSON accept; a reply that is not ok gives the status message (fed with the body's error fields when it parses); a rejected call gives the proxy-down message for `TypeError: Failed to fetch`, otherwise its own message; an ok reply whose body does not parse gives the parse error |
| RiotFetch.FetchOkIff | js/services/riotApi.js:72-105 | a call succeeds iff there is a key, the reply is 2xx and the body parses, and then it yields that body |
| RiotFetch.FetchErrorsNonEmpty | js/services/riotApi.js:79-104 | given that the rejection message and the parse error are non-empty, every failed call carries a non-empty message |
| RiotProfile.FindRanked | js/services/riotApi.js:239 | the first RANKED_TFT entry, if any |
| RiotProfile.PickEntry | js/services/riotApi.js:239 | an entry is picked iff the list is non-empty, and it comes from the list |
| RiotProfile.PickEntrySpec | js/services/riotApi.js:239 | the first RANKED_TFT entry is picked when one exists, and the first entry otherwise |
| RiotProfile.RankedStage | js/services/riotApi.js:236-242 | without a summoner id there is no league call and no ranked data |
| RiotProfile.RankedStageNone | js/services/riotApi.js:234-245 | no ranked data iff there is no summoner id, the league call failed, or it returned no entries |
| RiotProfile.ToRanked | js/services/riotApi.js:292-310 | no entry gives the Unranked record; an entry gives its fields, `tier rank` as text, its rating, and wins + losses games |
| RiotProfile.UnrankedOnlyWithoutEntry | js/services/riotApi.js:292-310 | the Unranked record arises iff there is no ranked entry |
| RiotProfile.NonZero | js/services/riotApi.js:270 | `placement \|\| null`: present iff present and non-zero |
| RiotProfile.FindParticipant | js/services/riotApi.js:266 | a found participant has the player's puuid and no earlier participant has it; none is found only when no participant has it |
| RiotProfile.EntryOf | js/services/riotApi.js:259-277 | each match entry keeps its id; a failed detail gives the bare entry |
| RiotProfile.PlacementNullCases | js/services/riotApi.js:260-270 | the placement is null iff the detail failed, the participant is missing, or its placement is missing or 0 |
| RiotProfile.DetailCalls | js/services/riotApi.js:253-255 | details are requested for exactly the first min(n, 5) ids, in order |
| RiotProfile.MatchesStageSpec | js/services/riotApi.js:248-281 | a failed id listing gives no matches; otherwise one entry per id, in order, bare from index 5 on, and bare below 5 iff that detail failed |
| RiotProfile.MatchRequests | js/services/riotApi.js:250-255 | the match stage requests the id list and then the details of the first min(n, 5) ids, in that order |
| RiotProfile.GetFullRiotProfile | js/services/riotApi.js:221-323 | the envelope names the player; a failure leaves the store unchanged; a success writes the profile under the display name |
| RiotProfile.NoKeyNoRequest | js/services/riotApi.js:55-227 | without a key, no request is sent and the result is a failure with the key message |
| RiotProfile.MalformedNameIsFatal | js/services/riotApi.js:224-321 | a name that cannot be decoded fails before any request |
| RiotProfile.AccountFailureIsFatal | js/services/riotApi.js:227-321 | a failed account lookup is fatal with its message, after one request, and leaves the store unchanged |
| RiotProfile.SummonerFailureIsFatal | js/services/riotApi.js:230-321 | a failed summoner lookup is fatal with its message, after two requests, and leaves the store unchanged |
| RiotProfile.SuccessIff | js/services/riotApi.js:221-323 | the pipeline succeeds iff the name decodes and both the account and summoner lookups succeed; league and match failures only degrade |
| RiotProfile.SuccessProfile | js/services/riotApi.js:284-317 | on success, riot_id is gameName#tagLine, puuid and summoner id are copied, ranked and matches come from their stages, and the store holds the profile under the display name |
| RiotProfile.SuccessRequests | js/services/riotApi.js:119-230 | on success, the first two requests are the account lookup (regional) and the summoner lookup (platform), in that order |
| RiotProfile.SentCarriesKey | js/services/riotApi.js:60-74 | every request the pipeline sends carries the API key and asks for JSON |
| MetaApi.FetchProfile | js/services/api.js:19-39 | requests the stats-API URL; succeeds iff 2xx with a parsed body; stores the data under the display name only on success; errors are `HTTP error! status: N` or the network message |
| MetaApi.RoundHalfUp | js/services/api.js:65 | the result is the integer nearest the mean, halves rounded up |
| MetaApi.MaxOrZero | js/services/api.js:68 | the result is at least 0 and every rating, and is 0 or one of the ratings |
| MetaApi.FindRating | js/services/api.js:69-71 | the first counted profile whose rating is the value, or none |
| MetaApi.CalculateStats | js/services/api.js:47-83 | totalProfiles is the input count, failures included; with no success the defaults are 0, `-`, 0; avgRating is the defined ratings' mean rounded half up (`2n·avg ≤ 2·sum + n < 2n·(avg+1)`), 0 with no rating; highestRank and totalGames are taken over the successes with data |
| MetaApi.AllFailedDefaults | js/services/api.js:48-58 | a batch in which every fetch failed has the default summary |
| MetaApi.AverageWithinRatings | js/services/api.js:64-66 | the rounded mean lies between the lowest and the highest rating |
| MetaApi.StatsAverageBounds | js/services/api.js:60-66 | avgRating lies within the bounds of the successful profiles' defined ratings, and is 0 when none is defined |
| MetaApi.AverageOfEqual | js/services/api.js:64-66 | equal ratings average to that rating |
| MetaApi.HighestRankSpec | js/services/api.js:68-72 | highestRank is the text of the first profile rated max(ratings ∪ {0}), or `-` when no profile has that rating |
| MetaApi.HighestRank | js/services/api.js:68-72 | a highestRank other than `-` is the rating text of one of the counted profiles |
| MetaApi.RatingsBelowMax | js/services/api.js:68 | every defined rating is at most the maximum used for highestRank |
| MetaApi.TotalGamesSplit | js/services/api.js:74-76 | totalGames adds up over a split of the batch |
| MetaApi.TotalGames | js/services/api.js:74-76 | with no negative counts the total is non-negative and at least each profile's games |
| MetaApi.TotalGamesSingle | js/services/api.js:74-76 | one profile contributes its `num_games`, 0 when absent |
| MetaApi.StatsOfOne | js/services/api.js:48-76 | a batch of one successful fetch with data reports that profile's games; a failed or empty one reports 0 (with TotalGamesSplit: the sum over the successes) |
| Batch.LoadAll | js/main.js:47-58 | with the Riot source and no Riot key, an error and no fetch; otherwise one fetch per roster entry, in roster order |
| Batch.LoadKeepsEveryResult | js/main.js:57-65 | the sorted results are a permutation of the fetched results, one per roster entry, in descending key order |
| Batch.LoadIsStable | js/main.js:61-65 | results with equal keys keep roster order |
| Batch.LoadOrderUnique | js/main.js:61-65 | any descending arrangement that keeps ties in roster order is the one the load produces |
| Batch.FailuresLast | js/main.js:61-65 | when every rating is non-negative, no success follows a failure |
| StableSort.SortDesc | js/main.js:61-65 | the sort is a descending permutation that keeps the order of equal keys |
| StableSort.SortedUnique | js/main.js:61-65 | two descending sequences that agree on the order within each key are equal |
| MatchView.StripPrefix | js/components/matchHistoryModal.js:37 | a leading `TFT_Item_` is removed, and anything else is left alone |
| MatchView.MarkCapitals | js/components/matchHistoryModal.js:38 | one `_` is inserted per capital letter |
| MatchView.DropLeadingUnderscore | js/components/matchHistoryModal.js:39 | exactly one leading `_` is removed |
| MatchView.ChampionIconIgnoresCase | js/components/matchHistoryModal.js:20-24 | two champion ids give the same icon iff they agree up to case |
| MatchView.ChampionIconNoCapitals | js/components/matchHistoryModal.js:22-23 | the icon depends only on the lower-cased id, which has no capitals |
| MatchView.ChampionIdTwice | js/components/matchHistoryModal.js:23 | the lower-cased id appears twice in the icon URL, as the directory and as the file stem |
| MatchView.ChampionIcon | js/components/matchHistoryModal.js:20-24 | the path starts with the characters folder, holds the lower-cased id right after it, and its length is fixed by the id's |
| MatchView.ItemIconNoCapitals | js/components/matchHistoryModal.js:36-41 | the item asset name has no capitals, and two items share an icon iff their asset names agree |
| MatchView.ItemIcon | js/components/matchHistoryModal.js:31-42 | the path is the item-icon folder, the asset name, then `.png`, so the asset name reads back from it |
| MatchView.MarkWords | js/components/matchHistoryModal.js:38 | capitalised words run together come out joined by `_` after a leading `_` |
| MatchView.ItemNameOfWords | js/components/matchHistoryModal.js:28-40 | `TFT_Item_` + capitalised words gives those words lower-cased and joined by `_` |
| MatchView.ItemNameKeepsLetters | js/components/matchHistoryModal.js:36-40 | apart from underscores, the asset name is the lower-cased item name after the prefix |
| MatchView.PlacementClass | js/components/matchHistoryModal.js:157-161 | `placement-1` iff 1; `placement-top4` iff not 1 and at most 4; `placement-bot4` iff above 4 |
| MatchView.EmojiNotNumber | js/components/matchHistoryModal.js:169 | no emoji is the decimal text of a number |
| MatchView.PlacementEmojiSpec | js/components/matchHistoryModal.js:168-171 | placements 1..8 get emoji p-1; any other placement gets its decimal string, which is not an emoji and parses back to the placement |
| MatchView.PlacementEmoji | js/components/matchHistoryModal.js:168-171 | a placement outside 1..8 is shown as text that parses back to it |
| MatchView.TimeAgoBuckets | js/components/matchHistoryModal.js:178-189 | whole days from a day on, whole hours (1..23) from an hour, whole minutes (1..59) from a minute, and `just now` otherwise, future times included |
| MatchView.TimeAgo | js/components/matchHistoryModal.js:178-189 | the text is `just now` exactly when less than a minute has passed |
| MatchView.ParseTrait | js/components/matchHistoryModal.js:211-216 | a parsed trait never has count 0 |
| MatchView.ParseTraitFull | js/components/matchHistoryModal.js:211-216 | `set_name_count` parses to that name and count, a count of 0 falling back to 1 |
| MatchView.ParseTraitNoCount | js/components/matchHistoryModal.js:211-216 | `set_name` parses to that name with count 1 |
| MatchView.ParseTraitNoSeparator | js/components/matchHistoryModal.js:211-216 | a trait without `_` is its own name with count 1 |
| MatchView.ParseTraitEmptyName | js/components/matchHistoryModal.js:212-214 | an empty second part leaves the whole trait string as the name |
| MatchView.ShownTraits | js/components/matchHistoryModal.js:210-219 | at most 4 traits are shown, each with count ≥ 2 |
| MatchView.ActiveKeepsEvery | js/components/matchHistoryModal.js:218 | every trait with count ≥ 2 survives the filter |
| MatchView.ShownTraitsSpec | js/components/matchHistoryModal.js:210-219 | the shown traits are the first min(n, 4) active parsed traits in input order, and later traits cannot change them once 4 are active |
| MatchView.ShownUnits | js/components/matchHistoryModal.js:205-207 | min(n, 8) units in descending tier order |
| MatchView.ShownUnitsSpec | js/components/matchHistoryModal.js:205-207 | no unit left out has a higher tier than one shown, the sort is a permutation, and units of equal tier keep their order |
| MatchView.UnitItemIcons | js/components/matchHistoryModal.js:258-265 | a unit shows the icons of its first min(n, 3) items, none when it has no items |
| Helpers.PlacementColor | js/utils/helpers.js:13-18 | green iff ≤ 2, yellow iff 3-4, orange iff 5-6, red iff above 6 |
| Helpers.HexFollowsColor | js/utils/helpers.js:13-31 | two placements share a hex colour iff they share a colour class |
| Helpers.PlacementHexColor | js/utils/helpers.js:26-31 | each hex colour corresponds to exactly one colour class of `getPlacementColor` |
| Helpers.EscapeQuotes | js/utils/helpers.js:51-53 | the output is one character longer per quote |
| Helpers.UnescapeEscape | js/utils/helpers.js:51-53 | unescaping the output gives the input back, so nothing but quotes changes |
| Helpers.QuotesEscaped | js/utils/helpers.js:51-53 | every quote of the output directly follows a backslash |
| Helpers.QuoteCountKept | js/utils/helpers.js:51-53 | the output has as many quotes as the input |
| Analysis.InRange | js/components/analysis.js:27 | an index is kept iff it is selected and addresses a match (0 ≤ i < n) |
| Analysis.InRangeConcat | js/components/analysis.js:27 | the kept indices of a joined selection are those of each part, in selection order |
| Analysis.InRangeSingle | js/components/analysis.js:27 | one index is kept iff it addresses a match |
| Analysis.MatchesToAnalyze | js/components/analysis.js:24-29 | top10 gives min(10, n) matches; select gives at most one per selected index; any other mode gives min(20, n) |
| Analysis.PickedSpec | js/components/analysis.js:27 | select mode gives the matches at the in-range selected indices, in selection order |
| Analysis.PrefixModes | js/components/analysis.js:26-28 | outside select mode, the matches are a prefix of the player's matches |
| Analysis.SetMode | js/components/analysis.js:46-48 | the mode is set, the selection emptied, and the player kept |
| Analysis.Remove | js/components/analysis.js:68 | the index is gone, and every other element stays |
| Analysis.ToggleMatch | js/components/analysis.js:64-73 | a selected index is removed, an unselected one appended, and no other index changes membership |
| Analysis.ToggleKeepsDistinct | js/components/analysis.js:67-73 | toggling never creates a duplicate |
| Analysis.ToggleTwice | js/components/analysis.js:67-73 | toggling an unselected index twice restores the selection exactly |
| Analysis.ShowAnalysisSetup | js/components/analysis.js:107-122 | with missing data or no key, the state is unchanged; otherwise player set, selection emptied, mode `all` |
| Analysis.Reset | js/components/analysis.js:210-214 | player cleared, selection emptied, mode `all` |
| Analysis.StartAnalysis | js/components/analysis.js:169-177 | missing data is reported iff there is none for the current player; with data, nothing-selected when no match is picked and otherwise an analysis of exactly the picked matches of that data |
| Analysis.SetupThenStart | js/components/analysis.js:107-177 | right after setup, the analysis takes the first min(20, n) matches, or stops when there are none |
| Analysis.SelectStartsEmpty | js/components/analysis.js:46-177 | switching to select mode means nothing is analysed until a match is toggled |
| Analysis.ToggleAppendsMatch | js/components/analysis.js:27-73 | in select mode, toggling an unselected in-range index appends that match to what is analysed |
| Analysis.RiotLoadNotAnalysable | js/components/analysis.js:107-112 | a Riot load (which writes `riotProfileDataStore`) fills only the Riot store, so setup for a player absent from the stats store leaves the state unchanged |
| Gemini.Generators | js/services/gemini.js:31 | a model is kept iff its methods include generateContent |
| Gemini.GeneratorsKeepOrder | js/services/gemini.js:31 | the filter preserves order |
| Gemini.ShortNameStripsPrefix | js/services/gemini.js:32 | `models/` + id gives id |
| Gemini.ShortName | js/services/gemini.js:32 | a name starting `models/` loses exactly that prefix; a name without it is unchanged |
| Gemini.FetchModels | js/services/gemini.js:15-33 | with no key, an error before any request; an error reply gives its message; a model list always succeeds, with the short names of the generating models, in order |
| Gemini.FirstText | js/services/gemini.js:74 | the first part with non-empty text, or none iff no part has text |
| Gemini.CallGemini | js/services/gemini.js:42-80 | with no key, an error before any request; an error reply gives its message; no candidates gives `No response from AI`; a result is never empty |
| Gemini.CallGeminiSpec | js/services/gemini.js:66-79 | the call succeeds iff the first candidate has a part with text, and returns the first such part's text |
| Gemini.StarLevel | js/services/gemini.js:103 | tier 1: 3 iff rarity ≥ 3 and 1 iff rarity < 2; any other tier gives 1 |
| Gemini.StarLevelMonotone | js/services/gemini.js:103 | a higher rarity never lowers the star level |
| Gemini.ViewUnit | js/services/gemini.js:100-105 | a unit view keeps the tier, has its star level, and lists one label per item |
| Gemini.ItemLabel | js/services/gemini.js:104 | an item name with neither prefix is unchanged; `TFT_Item_` + a rest without `TFT16_Item_` gives the rest |
| Gemini.ViewUnits | js/services/gemini.js:100-105 | one view per unit, in order |
| Gemini.CoreChamps | js/services/gemini.js:108 | a unit is core iff tier ≥ 3 or it holds at least two items |
| Gemini.CoreChampsSingle | js/services/gemini.js:108 | one unit is kept iff it is a core champion |
| Gemini.CoreChampsConcat | js/services/gemini.js:108 | the core champions of joined unit lists are those of each part, in order and with their multiplicity, so the count comp_strength reads is the filter's |
| Gemini.UpgradedAreCore | js/services/gemini.js:108-114 | the upgraded champions are exactly the core champions |
| Gemini.CompStrength | js/services/gemini.js:169 | Strong iff ≥ 3 core, Medium iff exactly 2, Weak iff fewer |
| Gemini.UpgradeTiming | js/services/gemini.js:145 | Early iff level ≤ 7, Mid iff level 8, Late iff above 8 or missing |
| Gemini.TraitName | js/services/gemini.js:118 | a trait name holds no `_` |
| Gemini.EarlyTraits | js/services/gemini.js:118 | there are never more early traits than traits |
| Gemini.TraitNameOfSetTrait | js/services/gemini.js:118 | `TFT16_name_rest` and `TFT16_name` are both named `name` |
| Gemini.TraitNameOfOtherTrait | js/services/gemini.js:118 | a trait without `TFT16_` is named by its first part |
| Gemini.EarlyTraitsMembers | js/services/gemini.js:118 | a name is an early trait iff some trait mentioning `TFT16_` has that name |
| Gemini.EarlyTraitsSingle | js/services/gemini.js:118 | one trait contributes its name iff it mentions `TFT16_` |
| Gemini.EarlyTraitsConcat | js/services/gemini.js:118 | the early traits of a joined list are those of each part, in order (with EarlyTraitsSingle: filter, then name) |
| Gemini.FirstOpener | js/services/gemini.js:121-134 | Unknown iff no rule applies; otherwise the kind of the first rule that applies |
| Gemini.EarlyNames | js/services/gemini.js:117-132 | a name is early iff some unit of tier ≤ 2 has it |
| Gemini.EarlyNamesConcat | js/services/gemini.js:117 | the early names of joined unit lists are those of each part, in order |
| Gemini.OpenerType | js/services/gemini.js:121-134 | `Unknown` iff none of the six rules applies, otherwise the kind of one of the rules |
| Gemini.BriarIsIonia | js/services/gemini.js:122-129 | Briar as an early champion gives Ionia, not Noxus, unless the Bilgewater rule applies |
| Gemini.Derive | js/services/gemini.js:148-169 | the record is numbered index + 1, copies the placement, and its strength follows its core count |
| Gemini.MatchData | js/services/gemini.js:99-150 | one record per match, numbered from 1, with placements copied |
| Gemini.Stats | js/services/gemini.js:91-94 | the count is the number of matches, and top4 and wins never exceed it |
| Gemini.WinsWithinTop4 | js/services/gemini.js:93-94 | every win is counted among the top 4 |
| Gemini.NullPlacementCountsTop4 | js/services/gemini.js:93-94 | a null placement counts as top 4 (null compares as 0) but not as a win |
| Gemini.CountsOfOne | js/services/gemini.js:93-94 | one match counts as top 4 iff its placement compares `<= 4`, and as a win iff it is exactly 1 |
| Gemini.CountsConcat | js/services/gemini.js:93-94 | both counts add up over consecutive runs of matches |
| Text.ToLowerHasNoUpper | js/components/matchHistoryModal.js:22 | lower-casing leaves no capital letter |
| Text.FindFirstIffContains | js/services/riotApi.js:89 | a first occurrence exists iff the text contains the pattern |
| Text.ReplaceFirst | js/services/gemini.js:32 | text without the pattern is unchanged; otherwise exactly the first occurrence is replaced, a leading one included |
| Text.Split | js/components/matchHistoryModal.js:212 | at least one part, no part holds the separator, and joining the parts gives the text back |
| Text.SplitJoin | js/components/matchHistoryModal.js:212 | splitting a join of separator-free parts gives the parts back |
| Text.ParseIntToString | js/components/matchHistoryModal.js:170-215 | parsing the decimal text of an integer gives the integer back |

## Left out

- DOM, HTML and canvas rendering are not modelled. This covers the card and
  modal templates, `renderLPGraph`, the analysis result and error panels, and
  the match grid. The model works on the state and data these read.
- Networking, `Promise.all`, and the Express, CORS and `listen` setup are not
  modelled. Every remote call is its reply, given as a parameter. Detail
  fetches run in parallel in the source but are modelled in order. Stores are
  written by each fetch as it completes, and that write order is not modelled.
- The `source: 'riot'` tag of the Riot envelope is not modelled. The Riot and
  stats-API results share one envelope type.
- Percent-encoding and decoding, and Express's decoding of route parameters,
  are not modelled. They are the opaque `UriCodec` parameter, and the proxy
  agreement lemma treats the path as opaque text.
- `console` logging is not modelled.
- js/config/settings.js is not part of this model. Key presence, the model name
  and the data-source choice are inputs.
- Floating-point output is not modelled. This covers the `toFixed` averages and
  top-4 rates (matchHistoryModal.js:389-404, gemini.js:95), and `avg` in the
  prompt statistics.
- `calculateLPChanges` is not modelled because it uses `Math.random`.
- `formatDate` is not modelled because it depends on the locale.
- The prompt prose of `buildPrompt` and the markdown-to-HTML conversion of
  `formatAnalysisResult` are not modelled. Only the derived per-match fields
  and counts are.
- `openMatchHistoryModal` (matchHistoryModal.js:284-368) is not modelled as an
  operation. It reads the stats-API store as `showAnalysisSetup` does, and its
  card helpers are modelled.
- `getTftLeagueByPuuid` is not modelled because nothing in the core calls it.
- Case conversion is modelled on ASCII letters only. `toLowerCase` on
  non-ASCII letters is not modelled.
- `parseInt` is modelled on an optional sign followed by decimal digits. Leading
  whitespace and other radix prefixes are not modelled.
- MatchView.PlacementEmoji: a `null` placement makes the source throw on
  `toString`. The model takes an integer placement, so that crash is not
  represented.
- Gemini.UpgradeTiming: a missing level counts as `undefined`, so it gives
  `Late upgrade`. A level that is explicitly `null` compares as 0 in
  JavaScript and would give `Early upgrade`; the model does not tell the two
  apart.
- Gemini.FetchModels: a reply with neither `error` nor `models` makes the
  source throw on `undefined.filter`. The model's reply is either an error or
  a model list, so that case is not represented.
- Proxy.Serve: Express matches routes case-insensitively and accepts a
  trailing slash (`/HEALTH`, `/health/`), answers HEAD for the GET route, and
  `cors()` answers OPTIONS preflights with 204 before any route. The model
  matches `/health` and the route prefix exactly and has none of these.
- Gemini.Top4: a placement that is `undefined` compares false with `<= 4` in
  the source and is not counted. The model's absent placement stands for
  `null`, which compares as 0 and is counted.
- MatchView.ItemNameOfWords: the general lemma covers the documented example
  `TFT_Item_GargoyleStoneplate` → `gargoyle_stoneplate` (the words
  `Gargoyle` and `Stoneplate`). No separate lemma instantiates it on that
  literal.
