/** The batch load of `loadAllProfiles` in js/main.js: one fetch per roster
    entry, then a stable sort by descending rating with failures at -1. */
module Batch {
  import opened Wrappers
  import opened Regions
  import opened Profiles
  import opened StableSort

  const RiotKeyMissing := "Riot API key not configured. Please add your key in Settings."

  /** The outcome of a load: the error raised, or the sorted results; and the
      roster entries a fetch was issued for. */
  datatype Load<D> = Load(results: Result<seq<FetchResult<D>>>, fetched: seq<Ign>)

  /** The sort key of a result: `rating_numeric || 0` for a success, -1 for a failure. */
  function RatingKey<D>(ranked: D -> Option<RankedView>, r: FetchResult<D>): int {
    if r.Failure? then -1
    else if r.data.Some? && ranked(r.data.value).Some? && ranked(r.data.value).value.ratingNumeric.Some?
    then ranked(r.data.value).value.ratingNumeric.value
    else 0
  }

  function SortKey<D>(ranked: D -> Option<RankedView>): FetchResult<D> -> int {
    r => RatingKey(ranked, r)
  }

  /** The unsorted results, in roster order. */
  function Unsorted<D>(roster: seq<Ign>, fetch: Ign -> FetchResult<D>): seq<FetchResult<D>> {
    seq(|roster|, i requires 0 <= i < |roster| => fetch(roster[i]))
  }

  /** `loadAllProfiles`: with the Riot source and no Riot key an error before
      any fetch; otherwise `fetch` over the roster (neither fetch function
      rejects), sorted by descending key. */
  function LoadAll<D>(riotSource: bool, hasRiotKey: bool, roster: seq<Ign>,
                      fetch: Ign -> FetchResult<D>, ranked: D -> Option<RankedView>): (l: Load<D>)
    ensures riotSource && !hasRiotKey ==> l == Load(Err(RiotKeyMissing), [])
    ensures !(riotSource && !hasRiotKey) ==> l.fetched == roster && l.results.Ok?
  {
    if riotSource && !hasRiotKey then Load(Err(RiotKeyMissing), [])
    else
      Load(Ok(SortDesc(Unsorted(roster, fetch), SortKey(ranked))), roster)
  }

  /** One result per roster entry: the same results, reordered by descending key. */
  lemma LoadKeepsEveryResult<D>(riotSource: bool, hasRiotKey: bool, roster: seq<Ign>,
                                fetch: Ign -> FetchResult<D>, ranked: D -> Option<RankedView>)
    requires !(riotSource && !hasRiotKey)
    ensures var l := LoadAll(riotSource, hasRiotKey, roster, fetch, ranked);
      && |l.results.value| == |roster|
      && multiset(l.results.value) == multiset(Unsorted(roster, fetch))
      && SortedDesc(l.results.value, SortKey(ranked))
  {
  }

  /** Results with equal keys keep roster order. */
  lemma LoadIsStable<D>(riotSource: bool, hasRiotKey: bool, roster: seq<Ign>,
                        fetch: Ign -> FetchResult<D>, ranked: D -> Option<RankedView>, k: int)
    requires !(riotSource && !hasRiotKey)
    ensures var l := LoadAll(riotSource, hasRiotKey, roster, fetch, ranked);
      WithKey(l.results.value, SortKey(ranked), k) == WithKey(Unsorted(roster, fetch), SortKey(ranked), k)
  {
    StableOnTies(Unsorted(roster, fetch), SortKey(ranked), k);
  }

  /** The load's order is the only one that is sorted and keeps every tie in
      roster order. */
  lemma LoadOrderUnique<D>(riotSource: bool, hasRiotKey: bool, roster: seq<Ign>,
                           fetch: Ign -> FetchResult<D>, ranked: D -> Option<RankedView>, other: seq<FetchResult<D>>)
    requires !(riotSource && !hasRiotKey)
    requires SortedDesc(other, SortKey(ranked))
    requires forall k :: WithKey(other, SortKey(ranked), k) == WithKey(Unsorted(roster, fetch), SortKey(ranked), k)
    ensures LoadAll(riotSource, hasRiotKey, roster, fetch, ranked).results.value == other
  {
    var s := LoadAll(riotSource, hasRiotKey, roster, fetch, ranked).results.value;
    SortedUnique(s, other, SortKey(ranked));
  }

  /** No defined rating is negative. */
  predicate NonNegativeRatings<D>(rs: seq<FetchResult<D>>, ranked: D -> Option<RankedView>) {
    forall i :: 0 <= i < |rs| ==> rs[i].Success? ==> RatingKey(ranked, rs[i]) >= 0
  }

  /** When no rating is negative, every failure comes after every success. */
  lemma FailuresLast<D>(riotSource: bool, hasRiotKey: bool, roster: seq<Ign>,
                        fetch: Ign -> FetchResult<D>, ranked: D -> Option<RankedView>)
    requires !(riotSource && !hasRiotKey)
    requires NonNegativeRatings(Unsorted(roster, fetch), ranked)
    ensures var s := LoadAll(riotSource, hasRiotKey, roster, fetch, ranked).results.value;
      forall i, j :: 0 <= i < j < |s| && s[i].Failure? ==> s[j].Failure?
  {
    var u := Unsorted(roster, fetch);
    var s := LoadAll(riotSource, hasRiotKey, roster, fetch, ranked).results.value;
    var key := SortKey(ranked);
    forall j | 0 <= j < |s| && s[j].Success?
      ensures key(s[j]) >= 0
    {
      assert s[j] in multiset(u);
      var m :| 0 <= m < |u| && u[m] == s[j];
    }
  }
}
