/** `getFullRiotProfile` of js/services/riotApi.js as a pure function of the
    network's replies: account and summoner lookups are fatal, the league and
    match stages degrade to "Unranked" and to an empty or partial history. */
module RiotProfile {
  import opened Wrappers
  import opened Regions
  import opened Routing
  import opened Rating
  import opened RiotFetch
  import opened Profiles

  // ---------------------------------------------------------------------------
  // What the Riot endpoints return
  // ---------------------------------------------------------------------------

  datatype Account = Account(puuid: string, gameName: string, tagLine: string)

  /** Some platforms do not report the summoner `id`. */
  datatype Summoner = Summoner(id: Option<string>, summonerLevel: int, profileIconId: int)

  datatype RiotTrait = RiotTrait(name: string, numUnits: int, tierCurrent: int)

  datatype RiotUnit = RiotUnit(characterId: string, tier: int, itemNames: seq<string>)

  datatype Participant = Participant(
    puuid: string,
    placement: Option<int>,
    traits: Option<seq<RiotTrait>>,
    units: Option<seq<RiotUnit>>,
    level: Option<int>,
    augments: Option<seq<string>>)

  datatype MatchInfo = MatchInfo(participants: Option<seq<Participant>>, gameDatetime: Option<int>, gameLength: Option<int>)

  datatype MatchDetail = MatchDetail(info: Option<MatchInfo>)

  /** The network: the reply each endpoint gives for a URL. */
  datatype Network = Network(
    account: string -> Reply<Account>,
    summoner: string -> Reply<Summoner>,
    league: string -> Reply<seq<LeagueEntry>>,
    matchIds: string -> Reply<seq<string>>,
    matchDetail: string -> Reply<MatchDetail>)

  /** `encodeURIComponent` and `decodeURIComponent`; decoding can fail. */
  datatype UriCodec = UriCodec(encode: string -> string, decode: string -> Result<string>)

  // ---------------------------------------------------------------------------
  // The normalised profile
  // ---------------------------------------------------------------------------

  datatype SummonerView = SummonerView(
    riotId: string,
    puuid: string,
    summonerId: Option<string>,
    summonerLevel: int,
    profileIconId: int)

  datatype Ranked = Ranked(
    tier: string,
    rank: string,
    leaguePoints: Option<int>,
    wins: int,
    losses: int,
    ratingText: string,
    ratingNumeric: int,
    numGames: int)

  const Unranked := Ranked("UNRANKED", "", Some(0), 0, 0, "Unranked", 0, 0)

  /** A match of the history: only its id when no details were fetched or the
      detail call failed; otherwise the player's fields from the details. */
  datatype MatchEntry =
    | Bare(matchId: string)
    | Detailed(
        matchId: string,
        placement: Option<int>,
        gameDatetime: Option<int>,
        gameLength: Option<int>,
        traits: seq<RiotTrait>,
        units: seq<RiotUnit>,
        level: Option<int>,
        augments: seq<string>)

  datatype Profile = Profile(summoner: SummonerView, ranked: Ranked, matches: seq<MatchEntry>)

  /** One call of the pipeline: its envelope, the Riot profile store after it,
      and the requests sent, in the order they are issued. */
  datatype Outcome = Outcome(result: FetchResult<Profile>, store: map<string, Profile>, sent: seq<Request>)

  const RankedQueue := "RANKED_TFT"
  const MatchCount := 20
  const DetailLimit := 5

  // ---------------------------------------------------------------------------
  // Endpoints
  // ---------------------------------------------------------------------------

  function AccountUrl(codec: UriCodec, gameName: string, tagLine: string, region: string): string {
    BuildProxyUrl(region, "/riot/account/v1/accounts/by-riot-id/" + codec.encode(gameName) + "/" + codec.encode(tagLine), true)
  }

  function SummonerUrl(puuid: string, region: string): string {
    BuildProxyUrl(region, "/tft/summoner/v1/summoners/by-puuid/" + puuid, false)
  }

  function LeagueUrl(summonerId: string, region: string): string {
    BuildProxyUrl(region, "/tft/league/v1/entries/by-summoner/" + summonerId, false)
  }

  function MatchIdsUrl(puuid: string, region: string): string {
    BuildProxyUrl(region, "/tft/match/v1/matches/by-puuid/" + puuid + "/ids?count=20", true)
  }

  function MatchDetailUrl(matchId: string, region: string): string {
    BuildProxyUrl(region, "/tft/match/v1/matches/" + matchId, true)
  }

  /** The request a call sent, as a trace of zero or one request. */
  function SentBy<T>(c: Call<T>): (r: seq<Request>)
    ensures |r| <= 1
    ensures c.sent.Some? <==> |r| == 1
    ensures |r| == 1 ==> r[0] == c.sent.value
  {
    if c.sent.Some? then [c.sent.value] else []
  }

  /** The requests of several calls, in order. */
  function SentByAll<T>(cs: seq<Call<T>>): seq<Request> {
    if cs == [] then [] else SentBy(cs[0]) + SentByAll(cs[1..])
  }

  // ---------------------------------------------------------------------------
  // Stage 3: ranked info
  // ---------------------------------------------------------------------------

  /** Index of the first entry of the ranked queue. */
  function FindRanked(entries: seq<LeagueEntry>): (r: Option<nat>)
    ensures r.Some? ==> r.value < |entries| && entries[r.value].queueType == RankedQueue
    ensures r.Some? ==> forall j :: 0 <= j < r.value ==> entries[j].queueType != RankedQueue
    ensures r.None? ==> forall j :: 0 <= j < |entries| ==> entries[j].queueType != RankedQueue
  {
    if entries == [] then None
    else if entries[0].queueType == RankedQueue then Some(0)
    else match FindRanked(entries[1..])
      case None => None
      case Some(i) => Some(i + 1)
  }

  /** `entries.find(e => e.queueType === 'RANKED_TFT') || entries[0]`. */
  function PickEntry(entries: seq<LeagueEntry>): (e: Option<LeagueEntry>)
    ensures e.None? <==> entries == []
    ensures e.Some? ==> e.value in entries
  {
    match FindRanked(entries)
    case Some(i) => Some(entries[i])
    case None => if entries == [] then None else Some(entries[0])
  }

  /** `summoner.id` is truthy. */
  predicate HasSummonerId(s: Summoner) {
    s.id.Some? && s.id.value != ""
  }

  function LeagueCall(apiKey: string, net: Network, summonerId: string, region: string): Call<seq<LeagueEntry>> {
    Fetch(apiKey, LeagueUrl(summonerId, region), net.league(LeagueUrl(summonerId, region)))
  }

  /** The entry the ranked record is built from, and the league request sent.
      A failing league call is caught and leaves no entry. */
  function RankedStage(apiKey: string, net: Network, summoner: Summoner, region: string): (r: (Option<LeagueEntry>, seq<Request>))
    ensures !HasSummonerId(summoner) ==> r == (None, [])
  {
    if HasSummonerId(summoner) then
      var c := LeagueCall(apiKey, net, summoner.id.value, region);
      (if c.result.Ok? then PickEntry(c.result.value) else None, SentBy(c))
    else (None, [])
  }

  /** The `ranked` record: the entry's fields, or the unranked placeholder. */
  function ToRanked(info: Option<LeagueEntry>): (r: Ranked)
    ensures info.None? ==> r == Unranked
    ensures info.Some? ==>
      && r.tier == info.value.tier && r.rank == info.value.rank
      && r.leaguePoints == info.value.leaguePoints
      && r.wins == info.value.wins && r.losses == info.value.losses
      && r.ratingText == info.value.tier + " " + info.value.rank
      && r.ratingNumeric == RatingNumeric(info.value)
      && r.numGames == info.value.wins + info.value.losses
  {
    match info
    case None => Unranked
    case Some(e) =>
      Ranked(e.tier, e.rank, e.leaguePoints, e.wins, e.losses, e.tier + " " + e.rank,
             RatingNumeric(e), e.wins + e.losses)
  }

  // ---------------------------------------------------------------------------
  // Stage 4: match history
  // ---------------------------------------------------------------------------

  /** `x || null` for a number: zero counts as missing. */
  function NonZero(x: Option<int>): (r: Option<int>)
    ensures r.Some? <==> x.Some? && x.value != 0
    ensures r.Some? ==> r == x
  {
    if x.Some? && x.value != 0 then x else None
  }

  /** `participants.find(p => p.puuid === puuid)`. */
  function FindParticipant(ps: seq<Participant>, puuid: string): (r: Option<Participant>)
    ensures r.Some? ==> r.value in ps && r.value.puuid == puuid
    ensures r.None? ==> forall i :: 0 <= i < |ps| ==> ps[i].puuid != puuid
    ensures r.Some? ==> exists k :: (0 <= k < |ps| && ps[k] == r.value
      && forall j :: 0 <= j < k ==> ps[j].puuid != puuid)
  {
    if ps == [] then None
    else if ps[0].puuid == puuid then Some(ps[0])
    else
      var r := FindParticipant(ps[1..], puuid);
      if r.Some? then
        var k :| 0 <= k < |ps[1..]| && ps[1..][k] == r.value
          && forall j :: 0 <= j < k ==> ps[1..][j].puuid != puuid;
        assert ps[k + 1] == r.value;
        assert forall j :: 0 <= j < k + 1 ==> ps[j].puuid != puuid by {
          forall j | 0 <= j < k + 1 ensures ps[j].puuid != puuid {
            if j > 0 { assert ps[j] == ps[1..][j - 1]; }
          }
        }
        r
      else r
  }

  /** `details.info?.participants?.find(...)`. */
  function ParticipantOf(d: MatchDetail, puuid: string): Option<Participant> {
    if d.info.Some? && d.info.value.participants.Some? then FindParticipant(d.info.value.participants.value, puuid)
    else None
  }

  /** One history entry from a match id and its details (absent when not
      fetched or when the detail call failed). */
  function EntryOf(matchId: string, details: Option<MatchDetail>, puuid: string): (m: MatchEntry)
    ensures m.matchId == matchId
    ensures details.None? ==> m == Bare(matchId)
    ensures details.Some? ==> m.Detailed?
  {
    match details
    case None => Bare(matchId)
    case Some(d) =>
      var p := ParticipantOf(d, puuid);
      var info := d.info;
      Detailed(
        matchId,
        if p.Some? then NonZero(p.value.placement) else None,
        if info.Some? then NonZero(info.value.gameDatetime) else None,
        if info.Some? then NonZero(info.value.gameLength) else None,
        if p.Some? then p.value.traits.GetOr([]) else [],
        if p.Some? then p.value.units.GetOr([]) else [],
        if p.Some? then NonZero(p.value.level) else None,
        if p.Some? then p.value.augments.GetOr([]) else [])
  }

  /** The placement shown for an entry; `null` for a bare entry. */
  function PlacementOf(m: MatchEntry): Option<int> {
    if m.Bare? then None else m.placement
  }

  function MatchIdsCall(apiKey: string, net: Network, puuid: string, region: string): Call<seq<string>> {
    Fetch(apiKey, MatchIdsUrl(puuid, region), net.matchIds(MatchIdsUrl(puuid, region)))
  }

  function DetailCall(apiKey: string, net: Network, matchId: string, region: string): Call<MatchDetail> {
    Fetch(apiKey, MatchDetailUrl(matchId, region), net.matchDetail(MatchDetailUrl(matchId, region)))
  }

  /** The detail calls of the first five ids, in order. */
  function DetailCalls(apiKey: string, net: Network, ids: seq<string>, region: string): (cs: seq<Call<MatchDetail>>)
    ensures |cs| == Min(|ids|, DetailLimit)
    ensures forall i :: 0 <= i < |cs| ==> cs[i] == DetailCall(apiKey, net, ids[i], region)
  {
    var n := Min(|ids|, DetailLimit);
    seq(n, i requires 0 <= i < n => DetailCall(apiKey, net, ids[i], region))
  }

  /** A failed detail call is caught and becomes `null`. */
  function DetailOf(cs: seq<Call<MatchDetail>>, i: int): Option<MatchDetail> {
    if 0 <= i < |cs| && cs[i].result.Ok? then Some(cs[i].result.value) else None
  }

  /** The history and the requests of stage 4. A failing id listing is caught
      and leaves the history empty. */
  function MatchesStage(apiKey: string, net: Network, puuid: string, region: string): (r: (seq<MatchEntry>, seq<Request>))
  {
    var c := MatchIdsCall(apiKey, net, puuid, region);
    match c.result
    case Err(_) => ([], SentBy(c))
    case Ok(ids) =>
      var cs := DetailCalls(apiKey, net, ids, region);
      (seq(|ids|, i requires 0 <= i < |ids| => EntryOf(ids[i], DetailOf(cs, i), puuid)),
       SentBy(c) + SentByAll(cs))
  }

  // ---------------------------------------------------------------------------
  // The pipeline
  // ---------------------------------------------------------------------------

  function AccountCall(apiKey: string, net: Network, codec: UriCodec, gameName: string, ign: Ign): Call<Account> {
    var url := AccountUrl(codec, gameName, ign.tagLine, ign.region);
    Fetch(apiKey, url, net.account(url))
  }

  function SummonerCall(apiKey: string, net: Network, puuid: string, region: string): Call<Summoner> {
    Fetch(apiKey, SummonerUrl(puuid, region), net.summoner(SummonerUrl(puuid, region)))
  }

  /** The profile built from the account, the summoner and the two degradable stages. */
  function BuildProfile(account: Account, summoner: Summoner, info: Option<LeagueEntry>, matches: seq<MatchEntry>): Profile {
    Profile(
      SummonerView(account.gameName + "#" + account.tagLine, account.puuid, summoner.id,
                   summoner.summonerLevel, summoner.profileIconId),
      ToRanked(info),
      matches)
  }

  /** `getFullRiotProfile(ign)` with the Riot key `apiKey`, against `net`,
      starting from the Riot profile store `store`. */
  function GetFullRiotProfile(ign: Ign, apiKey: string, codec: UriCodec, net: Network, store: map<string, Profile>): (o: Outcome)
    ensures o.result.ign == ign
    ensures o.result.Failure? ==> o.store == store
    ensures o.result.Success? ==>
      o.result.data.Some? && o.store == store[ign.displayName := o.result.data.value]
  {
    match codec.decode(ign.gameName)
    case Err(m) => Outcome(Failure(m, ign), store, [])
    case Ok(name) =>
      var ac := AccountCall(apiKey, net, codec, name, ign);
      match ac.result
      case Err(m) => Outcome(Failure(m, ign), store, SentBy(ac))
      case Ok(account) =>
        var sc := SummonerCall(apiKey, net, account.puuid, ign.region);
        match sc.result
        case Err(m) => Outcome(Failure(m, ign), store, SentBy(ac) + SentBy(sc))
        case Ok(summoner) =>
          var (info, leagueSent) := RankedStage(apiKey, net, summoner, ign.region);
          var (matches, matchSent) := MatchesStage(apiKey, net, account.puuid, ign.region);
          var profile := BuildProfile(account, summoner, info, matches);
          Outcome(Success(Some(profile), ign), store[ign.displayName := profile],
                  SentBy(ac) + SentBy(sc) + leagueSent + matchSent)
  }

  // ---------------------------------------------------------------------------
  // Properties
  // ---------------------------------------------------------------------------

  /** Without a Riot key nothing is requested, the call fails and the store is
      untouched; once the name decodes, the failure is the configuration error. */
  lemma NoKeyNoRequest(ign: Ign, codec: UriCodec, net: Network, store: map<string, Profile>)
    ensures var o := GetFullRiotProfile(ign, "", codec, net, store);
      && o.sent == [] && o.result.Failure? && o.store == store
      && (codec.decode(ign.gameName).Ok? ==> o.result.error == KeyMissing)
  {
  }

  /** A game name that does not decode fails the call before any request. */
  lemma MalformedNameIsFatal(ign: Ign, apiKey: string, codec: UriCodec, net: Network, store: map<string, Profile>)
    requires codec.decode(ign.gameName).Err?
    ensures GetFullRiotProfile(ign, apiKey, codec, net, store)
         == Outcome(Failure(codec.decode(ign.gameName).message, ign), store, [])
  {
  }

  /** A failing account lookup is fatal: its message is the envelope's error,
      the store is untouched and nothing else is requested. */
  lemma AccountFailureIsFatal(ign: Ign, apiKey: string, codec: UriCodec, net: Network, store: map<string, Profile>)
    requires codec.decode(ign.gameName).Ok?
    requires AccountCall(apiKey, net, codec, codec.decode(ign.gameName).value, ign).result.Err?
    ensures var ac := AccountCall(apiKey, net, codec, codec.decode(ign.gameName).value, ign);
      GetFullRiotProfile(ign, apiKey, codec, net, store) == Outcome(Failure(ac.result.message, ign), store, SentBy(ac))
  {
  }

  /** A failing summoner lookup is fatal in the same way. */
  lemma SummonerFailureIsFatal(ign: Ign, apiKey: string, codec: UriCodec, net: Network, store: map<string, Profile>)
    requires codec.decode(ign.gameName).Ok?
    requires AccountCall(apiKey, net, codec, codec.decode(ign.gameName).value, ign).result.Ok?
    requires var account := AccountCall(apiKey, net, codec, codec.decode(ign.gameName).value, ign).result.value;
      SummonerCall(apiKey, net, account.puuid, ign.region).result.Err?
    ensures var ac := AccountCall(apiKey, net, codec, codec.decode(ign.gameName).value, ign);
      var sc := SummonerCall(apiKey, net, ac.result.value.puuid, ign.region);
      GetFullRiotProfile(ign, apiKey, codec, net, store) == Outcome(Failure(sc.result.message, ign), store, SentBy(ac) + SentBy(sc))
  {
  }

  /** The call succeeds exactly when the name decodes and both the account and
      the summoner lookups succeed; the league and match stages never fail it. */
  lemma SuccessIff(ign: Ign, apiKey: string, codec: UriCodec, net: Network, store: map<string, Profile>)
    ensures GetFullRiotProfile(ign, apiKey, codec, net, store).result.Success? <==>
      && codec.decode(ign.gameName).Ok?
      && var ac := AccountCall(apiKey, net, codec, codec.decode(ign.gameName).value, ign);
      && ac.result.Ok?
      && SummonerCall(apiKey, net, ac.result.value.puuid, ign.region).result.Ok?
  {
  }

  /** A successful profile: `riot_id` is `gameName#tagLine` of the account, the
      ranked record comes from the league stage and the history from the match
      stage, and the profile is stored under the display name. The account and
      summoner requests come first. */
  lemma SuccessProfile(ign: Ign, apiKey: string, codec: UriCodec, net: Network, store: map<string, Profile>)
    requires GetFullRiotProfile(ign, apiKey, codec, net, store).result.Success?
    ensures codec.decode(ign.gameName).Ok?
    ensures var o := GetFullRiotProfile(ign, apiKey, codec, net, store);
      var ac := AccountCall(apiKey, net, codec, codec.decode(ign.gameName).value, ign);
      && ac.result.Ok?
      && var account := ac.result.value;
      && var sc := SummonerCall(apiKey, net, account.puuid, ign.region);
      && sc.result.Ok?
      && var p := o.result.data.value;
      && p.summoner.riotId == account.gameName + "#" + account.tagLine
      && p.summoner.puuid == account.puuid
      && p.summoner.summonerId == sc.result.value.id
      && p.ranked == ToRanked(RankedStage(apiKey, net, sc.result.value, ign.region).0)
      && p.matches == MatchesStage(apiKey, net, account.puuid, ign.region).0
      && ign.displayName in o.store && o.store[ign.displayName] == p
  {
    var ac := AccountCall(apiKey, net, codec, codec.decode(ign.gameName).value, ign);
    assert ac.result.Ok?;
    var sc := SummonerCall(apiKey, net, ac.result.value.puuid, ign.region);
    assert sc.result.Ok?;
  }

  /** A successful load first requested the account, then the summoner. */
  lemma SuccessRequests(ign: Ign, apiKey: string, codec: UriCodec, net: Network, store: map<string, Profile>)
    requires GetFullRiotProfile(ign, apiKey, codec, net, store).result.Success?
    ensures codec.decode(ign.gameName).Ok?
    ensures var o := GetFullRiotProfile(ign, apiKey, codec, net, store);
      var ac := AccountCall(apiKey, net, codec, codec.decode(ign.gameName).value, ign);
      && ac.result.Ok?
      && |o.sent| >= 2
      && o.sent[0] == Request(AccountUrl(codec, codec.decode(ign.gameName).value, ign.tagLine, ign.region), apiKey, "application/json")
      && o.sent[1] == Request(SummonerUrl(ac.result.value.puuid, ign.region), apiKey, "application/json")
  {
    var name := codec.decode(ign.gameName).value;
    var ac := AccountCall(apiKey, net, codec, name, ign);
    assert ac.result.Ok?;
    var account := ac.result.value;
    var sc := SummonerCall(apiKey, net, account.puuid, ign.region);
    assert sc.result.Ok?;
    var ranked := RankedStage(apiKey, net, sc.result.value, ign.region);
    var matches := MatchesStage(apiKey, net, account.puuid, ign.region);
    var o := GetFullRiotProfile(ign, apiKey, codec, net, store);
    assert o.sent == SentBy(ac) + SentBy(sc) + ranked.1 + matches.1;
    assert apiKey != "";
  }

  /** The entry chosen from a league list: the first entry of the ranked queue
      if there is one, otherwise the first entry. */
  lemma PickEntrySpec(entries: seq<LeagueEntry>)
    ensures (exists k :: 0 <= k < |entries| && entries[k].queueType == RankedQueue) ==>
      exists k :: 0 <= k < |entries| && PickEntry(entries) == Some(entries[k])
        && entries[k].queueType == RankedQueue
        && forall j :: 0 <= j < k ==> entries[j].queueType != RankedQueue
    ensures (forall k :: 0 <= k < |entries| ==> entries[k].queueType != RankedQueue) && entries != [] ==>
      PickEntry(entries) == Some(entries[0])
  {
  }

  /** No ranked entry exactly when the summoner has no id, the league call
      fails, or it lists no entry. */
  lemma RankedStageNone(apiKey: string, net: Network, summoner: Summoner, region: string)
    ensures RankedStage(apiKey, net, summoner, region).0.None? <==>
      || !HasSummonerId(summoner)
      || LeagueCall(apiKey, net, summoner.id.value, region).result.Err?
      || LeagueCall(apiKey, net, summoner.id.value, region).result.value == []
  {
  }

  /** The ranked record is the unranked placeholder exactly when there is no
      entry: a real entry's rating text always holds a space. */
  lemma UnrankedOnlyWithoutEntry(info: Option<LeagueEntry>)
    ensures ToRanked(info) == Unranked <==> info.None?
  {
    if info.Some? {
      var t := info.value.tier + " " + info.value.rank;
      assert t[|info.value.tier|] == ' ';
      assert forall i :: 0 <= i < |"Unranked"| ==> "Unranked"[i] != ' ';
      assert ToRanked(info).ratingText == t;
    }
  }

  /** The requests of calls that were all sent are those calls' requests, in order. */
  lemma {:induction false} SentByAllSent<T>(cs: seq<Call<T>>)
    requires forall i :: 0 <= i < |cs| ==> cs[i].sent.Some?
    ensures SentByAll(cs) == seq(|cs|, i requires 0 <= i < |cs| => cs[i].sent.value)
  {
    if cs != [] {
      SentByAllSent(cs[1..]);
      assert SentByAll(cs) == [cs[0].sent.value] + SentByAll(cs[1..]);
    }
  }

  /** The match stage: a failing id listing leaves no history; otherwise one
      entry per listed id, in order, details requested for the first five ids
      only, and an entry without details is bare. */
  lemma MatchesStageSpec(apiKey: string, net: Network, puuid: string, region: string)
    ensures var c := MatchIdsCall(apiKey, net, puuid, region);
      var r := MatchesStage(apiKey, net, puuid, region);
      && (c.result.Err? ==> r.0 == [])
      && (c.result.Ok? ==>
            var ids := c.result.value;
            && |r.0| == |ids|
            && (forall i :: 0 <= i < |ids| ==> r.0[i].matchId == ids[i])
            && (forall i :: DetailLimit <= i < |ids| ==> r.0[i] == Bare(ids[i]))
            && (forall i :: 0 <= i < |ids| && i < DetailLimit ==>
                  (r.0[i].Bare? <==> DetailCall(apiKey, net, ids[i], region).result.Err?)))
  {
  }

  /** With a key, the match stage requests the id list and then the details of
      the first five ids, in order. */
  lemma MatchRequests(apiKey: string, net: Network, puuid: string, region: string)
    requires apiKey != ""
    requires MatchIdsCall(apiKey, net, puuid, region).result.Ok?
    ensures var ids := MatchIdsCall(apiKey, net, puuid, region).result.value;
      var n := Min(|ids|, DetailLimit);
      MatchesStage(apiKey, net, puuid, region).1 ==
        [Request(MatchIdsUrl(puuid, region), apiKey, "application/json")] +
        seq(n, i requires 0 <= i < n => Request(MatchDetailUrl(ids[i], region), apiKey, "application/json"))
  {
    var ids := MatchIdsCall(apiKey, net, puuid, region).result.value;
    var cs := DetailCalls(apiKey, net, ids, region);
    SentByAllSent(cs);
  }

  /** Placement is missing exactly when the details are missing, the player is
      not among the participants, or the reported placement is absent or 0. */
  lemma PlacementNullCases(matchId: string, details: Option<MatchDetail>, puuid: string)
    ensures PlacementOf(EntryOf(matchId, details, puuid)).None? <==>
      || details.None?
      || ParticipantOf(details.value, puuid).None?
      || ParticipantOf(details.value, puuid).value.placement.None?
      || ParticipantOf(details.value, puuid).value.placement.value == 0
  {
  }

  /** Every request of `rs` carries the key `apiKey` and asks for JSON. */
  predicate Carries(rs: seq<Request>, apiKey: string) {
    forall i :: 0 <= i < |rs| ==> rs[i].token == apiKey && rs[i].accept == "application/json"
  }

  lemma CarriesConcat(a: seq<Request>, b: seq<Request>, apiKey: string)
    requires Carries(a, apiKey) && Carries(b, apiKey)
    ensures Carries(a + b, apiKey)
  {
    forall i | 0 <= i < |a + b|
      ensures (a + b)[i].token == apiKey && (a + b)[i].accept == "application/json"
    {
      if i >= |a| {
        assert (a + b)[i] == b[i - |a|];
      }
    }
  }

  lemma CallCarries<T>(apiKey: string, url: string, reply: Reply<T>)
    ensures Carries(SentBy(Fetch(apiKey, url, reply)), apiKey)
  {
  }

  lemma {:induction false} SentByAllCarries<T>(cs: seq<Call<T>>, apiKey: string)
    requires forall i :: 0 <= i < |cs| ==> Carries(SentBy(cs[i]), apiKey)
    ensures Carries(SentByAll(cs), apiKey)
  {
    if cs != [] {
      SentByAllCarries(cs[1..], apiKey);
      assert Carries(SentBy(cs[0]), apiKey);
      CarriesConcat(SentBy(cs[0]), SentByAll(cs[1..]), apiKey);
    }
  }

  lemma MatchesStageCarries(apiKey: string, net: Network, puuid: string, region: string)
    ensures Carries(MatchesStage(apiKey, net, puuid, region).1, apiKey)
  {
    var c := MatchIdsCall(apiKey, net, puuid, region);
    CallCarries(apiKey, MatchIdsUrl(puuid, region), net.matchIds(MatchIdsUrl(puuid, region)));
    if c.result.Ok? {
      var ids := c.result.value;
      var cs := DetailCalls(apiKey, net, ids, region);
      forall i | 0 <= i < |cs| ensures Carries(SentBy(cs[i]), apiKey) {
        CallCarries(apiKey, MatchDetailUrl(ids[i], region), net.matchDetail(MatchDetailUrl(ids[i], region)));
      }
      SentByAllCarries(cs, apiKey);
      CarriesConcat(SentBy(c), SentByAll(cs), apiKey);
    }
  }

  lemma RankedStageCarries(apiKey: string, net: Network, summoner: Summoner, region: string)
    ensures Carries(RankedStage(apiKey, net, summoner, region).1, apiKey)
  {
    if HasSummonerId(summoner) {
      var url := LeagueUrl(summoner.id.value, region);
      CallCarries(apiKey, url, net.league(url));
    }
  }

  /** Every request the pipeline sends carries the Riot key. */
  lemma SentCarriesKey(ign: Ign, apiKey: string, codec: UriCodec, net: Network, store: map<string, Profile>)
    ensures Carries(GetFullRiotProfile(ign, apiKey, codec, net, store).sent, apiKey)
  {
    if codec.decode(ign.gameName).Ok? {
      var name := codec.decode(ign.gameName).value;
      var ac := AccountCall(apiKey, net, codec, name, ign);
      var url := AccountUrl(codec, name, ign.tagLine, ign.region);
      CallCarries(apiKey, url, net.account(url));
      if ac.result.Ok? {
        var account := ac.result.value;
        var sc := SummonerCall(apiKey, net, account.puuid, ign.region);
        var surl := SummonerUrl(account.puuid, ign.region);
        CallCarries(apiKey, surl, net.summoner(surl));
        CarriesConcat(SentBy(ac), SentBy(sc), apiKey);
        if sc.result.Ok? {
          var summoner := sc.result.value;
          var leagueSent := RankedStage(apiKey, net, summoner, ign.region).1;
          var matchSent := MatchesStage(apiKey, net, account.puuid, ign.region).1;
          RankedStageCarries(apiKey, net, summoner, ign.region);
          MatchesStageCarries(apiKey, net, account.puuid, ign.region);
          CarriesConcat(SentBy(ac) + SentBy(sc), leagueSent, apiKey);
          CarriesConcat(SentBy(ac) + SentBy(sc) + leagueSent, matchSent, apiKey);
        }
      }
    }
  }
}
