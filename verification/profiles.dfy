/** What every profile fetch returns (the `{success, data | error, ign}`
    envelope of js/services/api.js and js/services/riotApi.js), and the ranked
    fields the batch view reads from a profile. */
module Profiles {
  import opened Wrappers
  import opened Regions

  /** A fetch result. `data` is absent when the body was JSON `null`. */
  datatype FetchResult<D> = Success(data: Option<D>, ign: Ign) | Failure(error: string, ign: Ign)

  /** `data.ranked.rating_numeric`, `rating_text` and `num_games`, each absent
      when undefined or null. */
  datatype RankedView = RankedView(ratingNumeric: Option<int>, ratingText: Option<string>, numGames: Option<int>)

  // ---------------------------------------------------------------------------
  // The stats-API profile, as the analysis and match-history views read it
  // ---------------------------------------------------------------------------

  /** A unit of a match summary; `itemNames` may be absent. */
  datatype Unit = Unit(characterId: string, tier: int, rarity: int, itemNames: Option<seq<string>>)

  /** A match summary. Trait entries are strings such as `TFT16_Brawler_3`. */
  datatype Summary = Summary(
    level: Option<int>,
    lastRound: Option<int>,
    units: Option<seq<Unit>>,
    traits: Option<seq<string>>,
    augments: Option<seq<string>>)

  /** A match; `placement` is absent when it is `null`. */
  datatype Match = Match(placement: Option<int>, matchTimestamp: int, summary: Option<Summary>)

  /** A stats-API profile: `summoner.riot_id`, `ranked`, `matches`. */
  datatype MetaProfile = MetaProfile(riotId: Option<string>, ranked: Option<RankedView>, matches: Option<seq<Match>>)
}
