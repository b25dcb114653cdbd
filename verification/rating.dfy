/** The numeric rating of a ranked entry (`calculateRatingNumeric` in
    js/services/riotApi.js): tier base + division offset + league points, with
    the division ignored from MASTER upwards. */
module Rating {
  import opened Wrappers

  /** One league entry as the league endpoint reports it. `leaguePoints` is
      absent when the reply omits it. */
  datatype LeagueEntry = LeagueEntry(
    queueType: string,
    tier: string,
    rank: string,
    leaguePoints: Option<int>,
    wins: int,
    losses: int)

  const TierValues: map<string, int> := map[
    "IRON" := 0, "BRONZE" := 400, "SILVER" := 800, "GOLD" := 1200,
    "PLATINUM" := 1600, "EMERALD" := 2000, "DIAMOND" := 2400,
    "MASTER" := 2800, "GRANDMASTER" := 3200, "CHALLENGER" := 3600
  ]

  const RankValues: map<string, int> := map["IV" := 0, "III" := 100, "II" := 200, "I" := 300]

  /** Tiers without divisions. */
  const ApexTiers: seq<string> := ["MASTER", "GRANDMASTER", "CHALLENGER"]

  /** `table[key] || 0`. */
  function ValueOrZero(table: map<string, int>, key: string): int {
    if key in table then table[key] else 0
  }

  /** `calculateRatingNumeric`. Apart from the league points the rating is a
      whole number of hundreds up to 3600, and it reaches 2800 exactly for the
      tiers without divisions. */
  function RatingNumeric(e: LeagueEntry): (r: int)
    ensures var base := r - e.leaguePoints.GetOr(0);
      && 0 <= base <= 3600 && base % 100 == 0
      && (e.tier in ApexTiers <==> base >= 2800)
  {
    var tierValue := ValueOrZero(TierValues, e.tier);
    var rankValue := ValueOrZero(RankValues, e.rank);
    var lpValue := e.leaguePoints.GetOr(0);
    if e.tier in ApexTiers then tierValue + lpValue
    else tierValue + rankValue + lpValue
  }

  // ---------------------------------------------------------------------------
  // The ladder as an independent reference: tiers and divisions in ascending order
  // ---------------------------------------------------------------------------

  const Ladder: seq<string> := [
    "IRON", "BRONZE", "SILVER", "GOLD", "PLATINUM", "EMERALD", "DIAMOND",
    "MASTER", "GRANDMASTER", "CHALLENGER"
  ]

  /** Divisions from lowest to highest. */
  const Divisions: seq<string> := ["IV", "III", "II", "I"]

  /** Index of the first apex tier in `Ladder`. */
  const MasterIndex := 7

  function Entry(tier: string, rank: string, lp: int): LeagueEntry {
    LeagueEntry("RANKED_TFT", tier, rank, Some(lp), 0, 0)
  }

  /** The tier table puts the i-th tier of the ladder 400 points above the previous. */
  lemma TierBase(i: int)
    requires 0 <= i < |Ladder|
    ensures Ladder[i] in TierValues && TierValues[Ladder[i]] == 400 * i
    ensures Ladder[i] in ApexTiers <==> i >= MasterIndex
  {
  }

  lemma DivisionOffset(d: int)
    requires 0 <= d < |Divisions|
    ensures Divisions[d] in RankValues && RankValues[Divisions[d]] == 100 * d
  {
  }

  /** Below MASTER: the i-th tier, d-th division and `lp` points rate
      400 i + 100 d + lp. */
  lemma RatingBelowMaster(i: int, d: int, lp: int)
    requires 0 <= i < MasterIndex && 0 <= d < |Divisions|
    ensures RatingNumeric(Entry(Ladder[i], Divisions[d], lp)) == 400 * i + 100 * d + lp
  {
    TierBase(i);
    DivisionOffset(d);
  }

  /** MASTER and above: the division is ignored, whatever it says. */
  lemma RatingApex(i: int, rank: string, lp: int)
    requires MasterIndex <= i < |Ladder|
    ensures RatingNumeric(Entry(Ladder[i], rank, lp)) == 400 * i + lp
  {
    TierBase(i);
  }

  /** An unknown tier, an unknown or empty division and missing points each
      contribute nothing. */
  lemma UnknownPartsRateZero(e: LeagueEntry)
    ensures e.tier !in TierValues ==> RatingNumeric(e) == ValueOrZero(RankValues, e.rank) + e.leaguePoints.GetOr(0)
    ensures e.rank !in RankValues && e.tier !in ApexTiers ==>
      RatingNumeric(e) == ValueOrZero(TierValues, e.tier) + e.leaguePoints.GetOr(0)
    ensures e.leaguePoints.None? ==> RatingNumeric(e) == RatingNumeric(e.(leaguePoints := Some(0)))
  {
  }

  /** The placeholder entry of an unranked player and IRON IV at 0 points both
      rate 0. */
  lemma UnrankedRatesZero()
    ensures RatingNumeric(LeagueEntry("", "UNRANKED", "", Some(0), 0, 0)) == 0
    ensures RatingNumeric(Entry("IRON", "IV", 0)) == 0
  {
  }

  /** Below MASTER the rating is strictly increasing in league points. */
  lemma MonotoneInPoints(i: int, d: int, lp1: int, lp2: int)
    requires 0 <= i < MasterIndex && 0 <= d < |Divisions|
    requires lp1 < lp2
    ensures RatingNumeric(Entry(Ladder[i], Divisions[d], lp1))
          < RatingNumeric(Entry(Ladder[i], Divisions[d], lp2))
  {
    RatingBelowMaster(i, d, lp1);
    RatingBelowMaster(i, d, lp2);
  }

  /** Below MASTER, with points in 0..99, a higher division always rates higher. */
  lemma MonotoneInDivision(i: int, d1: int, d2: int, lp1: int, lp2: int)
    requires 0 <= i < MasterIndex && 0 <= d1 < d2 < |Divisions|
    requires 0 <= lp1 <= 99 && 0 <= lp2 <= 99
    ensures RatingNumeric(Entry(Ladder[i], Divisions[d1], lp1))
          < RatingNumeric(Entry(Ladder[i], Divisions[d2], lp2))
  {
    RatingBelowMaster(i, d1, lp1);
    RatingBelowMaster(i, d2, lp2);
  }

  /** Every division of a tier below MASTER, with points in 0..99, rates below
      the lowest division at 0 points of the next tier (MASTER included). */
  lemma BelowNextTier(i: int, d: int, lp: int)
    requires 0 <= i < MasterIndex && 0 <= d < |Divisions|
    requires 0 <= lp <= 99
    ensures RatingNumeric(Entry(Ladder[i], Divisions[d], lp))
          < RatingNumeric(Entry(Ladder[i + 1], "IV", 0))
  {
    RatingBelowMaster(i, d, lp);
    TierBase(i + 1);
    if i + 1 < MasterIndex {
      RatingBelowMaster(i + 1, 0, 0);
    } else {
      RatingApex(i + 1, "IV", 0);
    }
  }

  /** The apex tiers are not ordered against each other: a MASTER player with
      500 points rates above a GRANDMASTER player at 0 points. */
  lemma ApexTiersOverlap()
    ensures RatingNumeric(Entry("MASTER", "I", 500)) > RatingNumeric(Entry("GRANDMASTER", "I", 0))
  {
  }
}
