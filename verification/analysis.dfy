/** The match-selection state of the AI analysis dialog
    (js/components/analysis.js): the player being analysed, the selected match
    indices and the selection mode, the transitions on them, and the matches
    an analysis is started with. */
module Analysis {
  import opened Wrappers
  import opened Profiles
  import opened Regions
  import RiotProfile

  /** `currentPlayer`, `selectedMatches`, `analysisMode`. The mode is kept as
      the string the page passes in: any value other than `top10` and
      `select` behaves like `all`. */
  datatype State = State(player: Option<string>, selected: seq<int>, mode: string)

  const Initial := State(None, [], "all")

  const TopCount := 10
  const AllCount := 20

  /** The stored profiles as `profileDataStore` holds them: `None` for a body that was `null`. */
  type Store = map<string, Option<MetaProfile>>

  /** `data.matches || []`. */
  function MatchesOf(data: MetaProfile): seq<Match> {
    data.matches.GetOr([])
  }

  /** The selected indices that name a match, in selection order. */
  function InRange(selected: seq<int>, n: int): (r: seq<int>)
    ensures |r| <= |selected|
    ensures forall k :: 0 <= k < |r| ==> 0 <= r[k] < n
    ensures forall y :: y in r <==> y in selected && 0 <= y < n
  {
    if selected == [] then []
    else (if 0 <= selected[0] < n then [selected[0]] else []) + InRange(selected[1..], n)
  }

  /** `selectedMatches.map(i => matches[i]).filter(Boolean)`: an index outside
      the list reads `undefined` and is dropped; a match object is never falsy. */
  function Picked(selected: seq<int>, matches: seq<Match>): (r: seq<Match>)
    ensures |r| <= |selected|
  {
    if selected == [] then []
    else
      (if 0 <= selected[0] < |matches| then [matches[selected[0]]] else [])
        + Picked(selected[1..], matches)
  }

  /** `getMatchesToAnalyze(data)` in state `s`. */
  function MatchesToAnalyze(s: State, data: MetaProfile): (r: seq<Match>)
    ensures s.mode == "top10" ==> |r| == Min(TopCount, |MatchesOf(data)|)
    ensures s.mode != "top10" && s.mode != "select" ==> |r| == Min(AllCount, |MatchesOf(data)|)
    ensures s.mode == "select" ==> |r| <= |s.selected|
  {
    var matches := MatchesOf(data);
    if s.mode == "top10" then matches[..Min(TopCount, |matches|)]
    else if s.mode == "select" then Picked(s.selected, matches)
    else matches[..Min(AllCount, |matches|)]
  }

  /** In `select` mode the analysed matches are those at the selected indices
      that exist, in the order they were selected. */
  lemma {:induction false} PickedSpec(selected: seq<int>, matches: seq<Match>)
    ensures var r := Picked(selected, matches);
      var idx := InRange(selected, |matches|);
      && |r| == |idx|
      && forall k :: 0 <= k < |r| ==> r[k] == matches[idx[k]]
  {
    if selected != [] {
      PickedSpec(selected[1..], matches);
    }
  }

  /** The first matches, in order: `top10` and the default mode are prefixes. */
  lemma PrefixModes(s: State, data: MetaProfile)
    requires s.mode != "select"
    ensures var r := MatchesToAnalyze(s, data);
      && r <= MatchesOf(data)
      && (s.mode == "top10" ==> |r| <= TopCount)
      && (s.mode != "top10" ==> |r| <= AllCount)
  {
  }

  /** `setMode(mode)`: the new mode with an empty selection; the player is kept. */
  function SetMode(s: State, mode: string): (r: State)
    ensures r.player == s.player && r.mode == mode && r.selected == []
  {
    State(s.player, [], mode)
  }

  /** `selectedMatches.filter(i => i !== idx)`. */
  function Remove(xs: seq<int>, x: int): (r: seq<int>)
    ensures x !in r
    ensures forall y :: y in xs && y != x ==> y in r
    ensures forall y :: y in r ==> y in xs
  {
    if xs == [] then []
    else (if xs[0] == x then [] else [xs[0]]) + Remove(xs[1..], x)
  }

  /** `toggleMatch(idx)`: drop `idx` when it is selected, else append it. */
  function ToggleMatch(s: State, idx: int): (r: State)
    ensures r.player == s.player && r.mode == s.mode
    ensures idx in s.selected ==> idx !in r.selected
    ensures idx !in s.selected ==> r.selected == s.selected + [idx]
    ensures forall y :: y != idx ==> (y in r.selected <==> y in s.selected)
  {
    if idx in s.selected then State(s.player, Remove(s.selected, idx), s.mode)
    else State(s.player, s.selected + [idx], s.mode)
  }

  predicate NoDuplicates(xs: seq<int>) {
    forall i, j :: 0 <= i < j < |xs| ==> xs[i] != xs[j]
  }

  lemma {:induction false} RemoveKeepsDistinct(xs: seq<int>, x: int)
    requires NoDuplicates(xs)
    ensures NoDuplicates(Remove(xs, x))
  {
    if xs != [] {
      RemoveKeepsDistinct(xs[1..], x);
      var rest := Remove(xs[1..], x);
      if xs[0] != x {
        assert xs[0] !in xs[1..];
        assert xs[0] !in rest;
        assert Remove(xs, x) == [xs[0]] + rest;
      } else {
        assert Remove(xs, x) == rest;
      }
    }
  }

  /** Toggling never selects an index twice. */
  lemma ToggleKeepsDistinct(s: State, idx: int)
    requires NoDuplicates(s.selected)
    ensures NoDuplicates(ToggleMatch(s, idx).selected)
  {
    if idx in s.selected {
      RemoveKeepsDistinct(s.selected, idx);
    }
  }

  lemma {:induction false} RemoveAbsent(xs: seq<int>, x: int)
    requires x !in xs
    ensures Remove(xs, x) == xs
  {
    if xs != [] {
      RemoveAbsent(xs[1..], x);
      assert xs == [xs[0]] + xs[1..];
    }
  }

  lemma RemoveLast(xs: seq<int>, x: int)
    requires x !in xs
    ensures Remove(xs + [x], x) == xs
  {
    RemoveConcat(xs, [x], x);
    RemoveAbsent(xs, x);
    assert Remove([x], x) == [] by {
      assert [x][1..] == [];
    }
  }

  lemma {:induction false} RemoveConcat(a: seq<int>, b: seq<int>, x: int)
    ensures Remove(a + b, x) == Remove(a, x) + Remove(b, x)
  {
    if a == [] {
      assert a + b == b;
    } else {
      var h := if a[0] == x then [] else [a[0]];
      calc {
        Remove(a + b, x);
        == { assert a + b == [a[0]] + (a[1..] + b); }
        Remove([a[0]] + (a[1..] + b), x);
        == { RemoveCons(a[0], a[1..] + b, x); }
        h + Remove(a[1..] + b, x);
        == { RemoveConcat(a[1..], b, x); }
        h + (Remove(a[1..], x) + Remove(b, x));
        ==
        (h + Remove(a[1..], x)) + Remove(b, x);
        == { RemoveCons(a[0], a[1..], x); assert a == [a[0]] + a[1..]; }
        Remove(a, x) + Remove(b, x);
      }
    }
  }

  lemma RemoveCons(y: int, xs: seq<int>, x: int)
    ensures Remove([y] + xs, x) == (if y == x then [] else [y]) + Remove(xs, x)
  {
    assert ([y] + xs)[1..] == xs;
  }

  /** Selecting an unselected match and then toggling it again restores the
      selection exactly, order included. */
  lemma ToggleTwice(s: State, idx: int)
    requires idx !in s.selected
    ensures ToggleMatch(ToggleMatch(s, idx), idx) == s
  {
    RemoveLast(s.selected, idx);
  }

  /** `showAnalysisSetup(displayName)`: nothing changes when no stored data is
      truthy under that name or when no Gemini key is set; otherwise the
      dialog opens for that player in mode `all` with nothing selected. */
  function ShowAnalysisSetup(s: State, store: Store, displayName: string, hasApiKey: bool): (r: State)
    ensures r != s ==> r == State(Some(displayName), [], "all")
    ensures r.player == Some(displayName) && r.selected == [] && r.mode == "all"
         <==> (displayName in store && store[displayName].Some? && hasApiKey)
              || s == State(Some(displayName), [], "all")
  {
    if displayName !in store || store[displayName].None? then s
    else if !hasApiKey then s
    else State(Some(displayName), [], "all")
  }

  /** `resetAnalysisState()`. */
  function Reset(s: State): (r: State)
    ensures r.player.None? && r.selected == [] && r.mode == "all"
  {
    Initial
  }

  /** What `startAnalysis` does before the prompt: it throws when the player's
      data is missing or `null` (reading `.matches` of it), stops when no match
      is to be analysed, and otherwise analyses the data over those matches. */
  datatype Start =
    | NoData
    | NothingSelected
    | Analyze(data: MetaProfile, matches: seq<Match>)

  /** The store key `profileDataStore[currentPlayer]` reads: a `null` player
      reads the property named "null". */
  function PlayerKey(player: Option<string>): string {
    if player.Some? then player.value else "null"
  }

  /** `startAnalysis()` in state `s`: the state is left as it is. */
  function StartAnalysis(s: State, store: Store): (o: Start)
    ensures o.Analyze? ==> |o.matches| > 0
    ensures o.Analyze? ==> PlayerKey(s.player) in store && store[PlayerKey(s.player)] == Some(o.data)
    ensures o.NoData? <==> PlayerKey(s.player) !in store || store[PlayerKey(s.player)].None?
    ensures PlayerKey(s.player) in store && store[PlayerKey(s.player)].Some? ==>
      var data := store[PlayerKey(s.player)].value;
      o == (if MatchesToAnalyze(s, data) == [] then NothingSelected else Analyze(data, MatchesToAnalyze(s, data)))
  {
    var key := PlayerKey(s.player);
    if key !in store || store[key].None? then NoData
    else
      var data := store[key].value;
      var matches := MatchesToAnalyze(s, data);
      if |matches| == 0 then NothingSelected else Analyze(data, matches)
  }

  /** Right after the dialog opens, an analysis covers the player's first
      twenty matches, and stops before any prompt when the player has none. */
  lemma SetupThenStart(s: State, store: Store, displayName: string, hasApiKey: bool)
    requires displayName in store && store[displayName].Some? && hasApiKey
    ensures var data := store[displayName].value;
      var o := StartAnalysis(ShowAnalysisSetup(s, store, displayName, hasApiKey), store);
      && (MatchesOf(data) == [] ==> o == NothingSelected)
      && (MatchesOf(data) != [] ==>
            o == Analyze(data, MatchesOf(data)[..Min(AllCount, |MatchesOf(data)|)]))
  {
  }

  /** Choosing `select` starts with nothing selected, so an analysis started
      right away stops before any prompt. */
  lemma SelectStartsEmpty(s: State, store: Store)
    ensures var o := StartAnalysis(SetMode(s, "select"), store);
      o == NoData || o == NothingSelected
  {
  }

  /** Each toggle of an in-range unselected index adds exactly its match to the
      end of what a `select` analysis covers. */
  lemma {:induction false} ToggleAppendsMatch(s: State, data: MetaProfile, idx: int)
    requires s.mode == "select"
    requires 0 <= idx < |MatchesOf(data)| && idx !in s.selected
    ensures MatchesToAnalyze(ToggleMatch(s, idx), data)
         == MatchesToAnalyze(s, data) + [MatchesOf(data)[idx]]
  {
    PickedConcat(s.selected, [idx], MatchesOf(data));
    assert Picked([idx], MatchesOf(data)) == [MatchesOf(data)[idx]] by {
      assert [idx][1..] == [];
    }
  }

  lemma {:induction false} PickedConcat(a: seq<int>, b: seq<int>, matches: seq<Match>)
    ensures Picked(a + b, matches) == Picked(a, matches) + Picked(b, matches)
  {
    if a == [] {
      assert a + b == b;
    } else {
      var h := if 0 <= a[0] < |matches| then [matches[a[0]]] else [];
      calc {
        Picked(a + b, matches);
        == { assert a + b == [a[0]] + (a[1..] + b); }
        Picked([a[0]] + (a[1..] + b), matches);
        == { PickedCons(a[0], a[1..] + b, matches); }
        h + Picked(a[1..] + b, matches);
        == { PickedConcat(a[1..], b, matches); }
        h + (Picked(a[1..], matches) + Picked(b, matches));
        ==
        (h + Picked(a[1..], matches)) + Picked(b, matches);
        == { PickedCons(a[0], a[1..], matches); assert a == [a[0]] + a[1..]; }
        Picked(a, matches) + Picked(b, matches);
      }
    }
  }

  /** Filtering the selection distributes over concatenation: the kept indices
      of a joined selection are those of each part, in order. */
  lemma {:induction false} InRangeConcat(a: seq<int>, b: seq<int>, n: int)
    ensures InRange(a + b, n) == InRange(a, n) + InRange(b, n)
    decreases |a|
  {
    if a != [] {
      assert (a + b)[0] == a[0];
      assert (a + b)[1..] == a[1..] + b;
      InRangeConcat(a[1..], b, n);
    } else {
      assert a + b == b;
    }
  }

  /** One index is kept exactly when it addresses a match. */
  lemma InRangeSingle(i: int, n: int)
    ensures InRange([i], n) == if 0 <= i < n then [i] else []
  {
    assert [i][1..] == [];
  }

  lemma PickedCons(i: int, rest: seq<int>, matches: seq<Match>)
    ensures Picked([i] + rest, matches)
         == (if 0 <= i < |matches| then [matches[i]] else []) + Picked(rest, matches)
  {
    assert ([i] + rest)[1..] == rest;
  }

  /** The page keeps Riot profiles in a store of their own, which the dialog
      never reads: a Riot load that stores the player's profile does not make
      the player analysable while the stats-API store lacks the name. */
  lemma RiotLoadNotAnalysable(s: State, metaStore: Store, ign: Ign, apiKey: string,
                              codec: RiotProfile.UriCodec, net: RiotProfile.Network,
                              riotStore: map<string, RiotProfile.Profile>, hasApiKey: bool)
    requires ign.displayName !in metaStore
    ensures var o := RiotProfile.GetFullRiotProfile(ign, apiKey, codec, net, riotStore);
      && (o.result.Success? ==> ign.displayName in o.store)
      && ShowAnalysisSetup(s, metaStore, ign.displayName, hasApiKey) == s
  {
  }
}
