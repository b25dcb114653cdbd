/** The stats-API service of js/services/api.js: `fetchProfile`, which stores
    a fetched profile under the display name, and `calculateStats`, the summary
    over a batch of fetch results. */
module MetaApi {
  import opened Wrappers
  import opened Text
  import opened Regions
  import opened RiotFetch
  import opened Profiles

  // ---------------------------------------------------------------------------
  // fetchProfile
  // ---------------------------------------------------------------------------

  /** What `fetch(apiUrl)` gives: a rejection with its message, or a response
      whose body parses as JSON (possibly `null`) or fails to parse. */
  datatype HttpReply =
    | NetworkError(message: string)
    | HttpResponse(status: int, body: Result<Option<MetaProfile>>)

  /** One call: the envelope, the profile store after it and the URL fetched. */
  datatype Fetched = Fetched(result: FetchResult<MetaProfile>, store: map<string, Option<MetaProfile>>, url: string)

  function HttpError(status: int): string {
    "HTTP error! status: " + IntToString(status)
  }

  /** `fetchProfile(ign)` against the reply `reply`, from store `store`. */
  function FetchProfile(ign: Ign, reply: HttpReply, store: map<string, Option<MetaProfile>>): (f: Fetched)
    ensures f.url == BuildApiUrl(ign)
    ensures f.result.ign == ign
    ensures f.result.Success? <==> reply.HttpResponse? && IsOk(reply.status) && reply.body.Ok?
    ensures f.result.Success? ==>
      f.result.data == reply.body.value && f.store == store[ign.displayName := reply.body.value]
    ensures f.result.Failure? ==> f.store == store
    ensures reply.HttpResponse? && !IsOk(reply.status) ==> f.result.error == HttpError(reply.status)
    ensures reply.NetworkError? ==> f.result.error == reply.message
  {
    var url := BuildApiUrl(ign);
    match reply
    case NetworkError(m) => Fetched(Failure(m, ign), store, url)
    case HttpResponse(status, body) =>
      if !IsOk(status) then Fetched(Failure(HttpError(status), ign), store, url)
      else match body
        case Err(m) => Fetched(Failure(m, ign), store, url)
        case Ok(data) => Fetched(Success(data, ign), store[ign.displayName := data], url)
  }

  // ---------------------------------------------------------------------------
  // calculateStats
  // ---------------------------------------------------------------------------

  datatype Stats = Stats(totalProfiles: nat, avgRating: int, highestRank: string, totalGames: int)

  /** The data of the results that succeeded with data (`p.success && p.data`), in order. */
  function Successes<D>(rs: seq<FetchResult<D>>): (ds: seq<D>)
    ensures |ds| <= |rs|
  {
    if rs == [] then []
    else (if rs[0].Success? && rs[0].data.Some? then [rs[0].data.value] else []) + Successes(rs[1..])
  }

  /** `data.ranked?.rating_numeric`. */
  function RatingOf<D>(d: D, ranked: D -> Option<RankedView>): Option<int> {
    if ranked(d).Some? then ranked(d).value.ratingNumeric else None
  }

  /** The ratings that are defined, in order. */
  function Ratings<D>(ds: seq<D>, ranked: D -> Option<RankedView>): (xs: seq<int>)
    ensures |xs| <= |ds|
  {
    if ds == [] then []
    else (if RatingOf(ds[0], ranked).Some? then [RatingOf(ds[0], ranked).value] else []) + Ratings(ds[1..], ranked)
  }

  function Sum(xs: seq<int>): int {
    if xs == [] then 0 else xs[0] + Sum(xs[1..])
  }

  /** `Math.round(sum / n)`: the nearest integer, halves rounded up. */
  function RoundHalfUp(sum: int, n: int): (r: int)
    requires n > 0
    ensures 2 * n * r <= 2 * sum + n < 2 * n * (r + 1)
  {
    (2 * sum + n) / (2 * n)
  }

  /** `Math.max(...xs, 0)`. */
  function MaxOrZero(xs: seq<int>): (m: int)
    ensures m >= 0
    ensures forall i :: 0 <= i < |xs| ==> xs[i] <= m
    ensures m == 0 || m in xs
  {
    if xs == [] then 0 else Max(xs[0], MaxOrZero(xs[1..]))
  }

  /** Index of the first profile whose rating is `v`. */
  function FindRating<D>(ds: seq<D>, ranked: D -> Option<RankedView>, v: int): (r: Option<nat>)
    ensures r.Some? ==> r.value < |ds| && RatingOf(ds[r.value], ranked) == Some(v)
    ensures r.Some? ==> forall j :: 0 <= j < r.value ==> RatingOf(ds[j], ranked) != Some(v)
    ensures r.None? ==> forall j :: 0 <= j < |ds| ==> RatingOf(ds[j], ranked) != Some(v)
  {
    if ds == [] then None
    else if RatingOf(ds[0], ranked) == Some(v) then Some(0)
    else match FindRating(ds[1..], ranked, v)
      case None => None
      case Some(i) => Some(i + 1)
  }

  /** `ranked?.rating_text || '-'`. */
  function TextOrDash(r: Option<RankedView>): string {
    if r.Some? && r.value.ratingText.Some? && r.value.ratingText.value != "" then r.value.ratingText.value else "-"
  }

  /** `ranked?.num_games || 0`. */
  function GamesOf<D>(d: D, ranked: D -> Option<RankedView>): int {
    if ranked(d).Some? && ranked(d).value.numGames.Some? then ranked(d).value.numGames.value else 0
  }

  /** The sum of `num_games` over the counted profiles; with no negative
      counts, every profile's games are part of it. */
  function TotalGames<D>(ds: seq<D>, ranked: D -> Option<RankedView>): (t: int)
    ensures (forall i :: 0 <= i < |ds| ==> GamesOf(ds[i], ranked) >= 0) ==>
      t >= 0 && forall i :: 0 <= i < |ds| ==> GamesOf(ds[i], ranked) <= t
  {
    if ds == [] then 0
    else
      var rest := TotalGames(ds[1..], ranked);
      assert forall i :: 1 <= i < |ds| ==> ds[i] == ds[1..][i - 1];
      GamesOf(ds[0], ranked) + rest
  }

  function AverageRating(xs: seq<int>): int {
    if |xs| > 0 then RoundHalfUp(Sum(xs), |xs|) else 0
  }

  /** `highestRank`: a text other than `-` is the rating text of one of the
      counted profiles. */
  function HighestRank<D>(ds: seq<D>, ranked: D -> Option<RankedView>): (h: string)
    ensures h != "-" ==> exists k :: (0 <= k < |ds| && ranked(ds[k]).Some?
      && ranked(ds[k]).value.ratingText == Some(h))
  {
    match FindRating(ds, ranked, MaxOrZero(Ratings(ds, ranked)))
    case None => "-"
    case Some(k) => TextOrDash(ranked(ds[k]))
  }

  /** `calculateStats(profiles)`, reading each profile's ranked fields with `ranked`. */
  function CalculateStats<D>(rs: seq<FetchResult<D>>, ranked: D -> Option<RankedView>): (s: Stats)
    ensures s.totalProfiles == |rs|
    ensures Successes(rs) == [] ==> s == Stats(|rs|, 0, "-", 0)
    ensures var xs := Ratings(Successes(rs), ranked);
      xs != [] ==> 2 * |xs| * s.avgRating <= 2 * Sum(xs) + |xs| < 2 * |xs| * (s.avgRating + 1)
    ensures Ratings(Successes(rs), ranked) == [] ==> s.avgRating == 0
    ensures s.highestRank == HighestRank(Successes(rs), ranked)
    ensures s.totalGames == TotalGames(Successes(rs), ranked)
  {
    var ds := Successes(rs);
    if |ds| == 0 then Stats(|rs|, 0, "-", 0)
    else
      var xs := Ratings(ds, ranked);
      Stats(|rs|, AverageRating(xs), HighestRank(ds, ranked), TotalGames(ds, ranked))
  }

  // ---------------------------------------------------------------------------
  // Properties
  // ---------------------------------------------------------------------------

  /** A batch where every fetch failed has the default summary. */
  lemma {:induction false} AllFailedDefaults<D>(rs: seq<FetchResult<D>>, ranked: D -> Option<RankedView>)
    requires forall j :: 0 <= j < |rs| ==> rs[j].Failure?
    ensures CalculateStats(rs, ranked) == Stats(|rs|, 0, "-", 0)
  {
    NoSuccesses(rs);
  }

  lemma {:induction false} NoSuccesses<D>(rs: seq<FetchResult<D>>)
    requires forall j :: 0 <= j < |rs| ==> rs[j].Failure?
    ensures Successes(rs) == []
  {
    if rs != [] {
      NoSuccesses(rs[1..]);
    }
  }

  lemma {:induction false} SumBounds(xs: seq<int>, lo: int, hi: int)
    requires forall i :: 0 <= i < |xs| ==> lo <= xs[i] <= hi
    ensures |xs| * lo <= Sum(xs) <= |xs| * hi
  {
    if xs != [] {
      SumBounds(xs[1..], lo, hi);
    }
  }

  /** The average lies between the lowest and the highest rating. */
  lemma AverageWithinRatings(xs: seq<int>, lo: int, hi: int)
    requires |xs| > 0
    requires forall i :: 0 <= i < |xs| ==> lo <= xs[i] <= hi
    ensures lo <= AverageRating(xs) <= hi
  {
    SumBounds(xs, lo, hi);
    AverageAtLeast(xs, lo);
    AverageAtMost(xs, hi);
  }

  lemma AverageAtLeast(xs: seq<int>, lo: int)
    requires |xs| > 0 && |xs| * lo <= Sum(xs)
    ensures lo <= AverageRating(xs)
  {
    var n, r := |xs|, AverageRating(xs);
    assert 2 * Sum(xs) + n < 2 * n * (r + 1);
    assert (2 * n) * lo < (2 * n) * (r + 1);
    MulCancel(2 * n, lo, r + 1);
  }

  lemma AverageAtMost(xs: seq<int>, hi: int)
    requires |xs| > 0 && Sum(xs) <= |xs| * hi
    ensures AverageRating(xs) <= hi
  {
    var n, r := |xs|, AverageRating(xs);
    assert 2 * n * r <= 2 * Sum(xs) + n;
    assert (2 * n) * r < (2 * n) * (hi + 1);
    MulCancel(2 * n, r, hi + 1);
  }

  /** A rating every profile shares is the average exactly. */
  lemma {:induction false} AverageOfEqual(xs: seq<int>, v: int)
    requires |xs| > 0
    requires forall i :: 0 <= i < |xs| ==> xs[i] == v
    ensures AverageRating(xs) == v
  {
    AverageWithinRatings(xs, v, v);
  }

  /** The batch average lies between the lowest and highest defined rating of
      the successful profiles, and is 0 when none of them has a rating. */
  lemma StatsAverageBounds<D>(rs: seq<FetchResult<D>>, ranked: D -> Option<RankedView>, lo: int, hi: int)
    requires forall i :: 0 <= i < |Ratings(Successes(rs), ranked)| ==> lo <= Ratings(Successes(rs), ranked)[i] <= hi
    ensures Ratings(Successes(rs), ranked) != [] ==> lo <= CalculateStats(rs, ranked).avgRating <= hi
    ensures Ratings(Successes(rs), ranked) == [] ==> CalculateStats(rs, ranked).avgRating == 0
  {
    var xs := Ratings(Successes(rs), ranked);
    if xs != [] {
      AverageWithinRatings(xs, lo, hi);
    }
  }

  /** `highestRank` names the first counted profile whose rating is the maximum
      of the ratings and 0; it is '-' when that profile has no text, or when no
      profile has that rating. */
  lemma HighestRankSpec<D>(ds: seq<D>, ranked: D -> Option<RankedView>)
    ensures var m := MaxOrZero(Ratings(ds, ranked));
      var h := HighestRank(ds, ranked);
      && (h != "-" ==>
            exists k :: 0 <= k < |ds| && RatingOf(ds[k], ranked) == Some(m)
              && h == TextOrDash(ranked(ds[k]))
              && forall j :: 0 <= j < k ==> RatingOf(ds[j], ranked) != Some(m))
      && ((forall k :: 0 <= k < |ds| ==> RatingOf(ds[k], ranked) != Some(m)) ==> h == "-")
  {
  }

  /** Every defined rating of a counted profile is at most the highest one. */
  lemma {:induction false} RatingsBelowMax<D>(ds: seq<D>, ranked: D -> Option<RankedView>, k: int)
    requires 0 <= k < |ds| && RatingOf(ds[k], ranked).Some?
    ensures RatingOf(ds[k], ranked).value <= MaxOrZero(Ratings(ds, ranked))
  {
    RatingInRatings(ds, ranked, k);
  }

  lemma {:induction false} RatingInRatings<D>(ds: seq<D>, ranked: D -> Option<RankedView>, k: int)
    requires 0 <= k < |ds| && RatingOf(ds[k], ranked).Some?
    ensures RatingOf(ds[k], ranked).value in Ratings(ds, ranked)
  {
    var head := if RatingOf(ds[0], ranked).Some? then [RatingOf(ds[0], ranked).value] else [];
    assert Ratings(ds, ranked) == head + Ratings(ds[1..], ranked);
    if k > 0 {
      RatingInRatings(ds[1..], ranked, k - 1);
      assert ds[1..][k - 1] == ds[k];
    }
  }

  lemma {:induction false} SuccessesConcat<D>(a: seq<FetchResult<D>>, b: seq<FetchResult<D>>)
    ensures Successes(a + b) == Successes(a) + Successes(b)
  {
    if a != [] {
      SuccessesConcat(a[1..], b);
      assert (a + b)[1..] == a[1..] + b;
    } else {
      assert a + b == b;
    }
  }

  lemma {:induction false} TotalGamesConcat<D>(a: seq<D>, b: seq<D>, ranked: D -> Option<RankedView>)
    ensures TotalGames(a + b, ranked) == TotalGames(a, ranked) + TotalGames(b, ranked)
  {
    if a != [] {
      TotalGamesConcat(a[1..], b, ranked);
      assert (a + b)[1..] == a[1..] + b;
    } else {
      assert a + b == b;
    }
  }

  /** One profile contributes its own `num_games`, 0 when absent. */
  lemma TotalGamesSingle<D>(d: D, ranked: D -> Option<RankedView>)
    ensures TotalGames([d], ranked) == GamesOf(d, ranked)
  {
    assert [d][1..] == [];
  }

  /** A batch of one successful fetch with data reports that profile's games;
      a failed fetch or one without data reports none. */
  lemma StatsOfOne<D>(r: FetchResult<D>, ranked: D -> Option<RankedView>)
    ensures r.Success? && r.data.Some? ==> CalculateStats([r], ranked).totalGames == GamesOf(r.data.value, ranked)
    ensures !(r.Success? && r.data.Some?) ==> CalculateStats([r], ranked).totalGames == 0
  {
    assert [r][1..] == [];
    if r.Success? && r.data.Some? {
      assert Successes([r]) == [r.data.value];
      TotalGamesSingle(r.data.value, ranked);
    } else {
      assert Successes([r]) == [];
    }
  }

  /** `totalGames` adds up over a batch split in two: each part contributes the
      games of its own counted profiles. */
  lemma TotalGamesSplit<D>(a: seq<FetchResult<D>>, b: seq<FetchResult<D>>, ranked: D -> Option<RankedView>)
    ensures CalculateStats(a + b, ranked).totalGames
         == CalculateStats(a, ranked).totalGames + CalculateStats(b, ranked).totalGames
  {
    SuccessesConcat(a, b);
    TotalGamesConcat(Successes(a), Successes(b), ranked);
  }
}
