/** The Gemini service of js/services/gemini.js: the model-list filter of
    `fetchModels`, the text extraction of `callGeminiAPI`, and the per-match
    derivations `buildPrompt` hands to the model (star level, core champions,
    opener type, composition strength, upgrade timing, placement counts). */
module Gemini {
  import opened Wrappers
  import opened Text
  import opened Profiles
  import Helpers

  const NoKey := "No API key configured"
  const NoResponse := "No response from AI"
  const NoText := "No text in response"
  const GenerateContent := "generateContent"

  // ---------------------------------------------------------------------------
  // fetchModels
  // ---------------------------------------------------------------------------

  /** A model of the list: its `name` and `supportedGenerationMethods`, if given. */
  datatype ModelInfo = ModelInfo(name: string, methods: Option<seq<string>>)

  /** The JSON of the list call: an `error` object with its message, or the models. */
  datatype ModelsReply = ModelsError(message: string) | ModelList(models: seq<ModelInfo>)

  /** The outcome of a call and whether a request went out. */
  datatype Call<T> = Call(result: Result<T>, requested: bool)

  predicate Generates(m: ModelInfo) {
    m.methods.Some? && GenerateContent in m.methods.value
  }

  /** The models that support `generateContent`, in list order. */
  function Generators(ms: seq<ModelInfo>): (r: seq<ModelInfo>)
    ensures forall m :: m in r <==> m in ms && Generates(m)
  {
    if ms == [] then []
    else (if Generates(ms[0]) then [ms[0]] else []) + Generators(ms[1..])
  }

  /** `m.name.replace('models/', '')`. */
  function ShortName(m: ModelInfo): (id: string)
    ensures StartsWith(m.name, "models/") ==> m.name == "models/" + id
    ensures !Contains(m.name, "models/") ==> id == m.name
  {
    ReplaceFirst(m.name, "models/", "")
  }

  /** `fetchModels()`: no key throws before any request; an `error` reply
      throws its message; otherwise the short names of the generating models. */
  function FetchModels(hasKey: bool, reply: ModelsReply): (c: Call<seq<string>>)
    ensures !hasKey ==> c == Call(Err(NoKey), false)
    ensures hasKey ==> c.requested
    ensures hasKey && reply.ModelsError? ==> c.result == Err(reply.message)
    ensures hasKey && reply.ModelList? ==> c.result.Ok?
    ensures c.result.Ok? ==> (reply.ModelList?
      && |c.result.value| == |Generators(reply.models)|
      && forall k :: 0 <= k < |c.result.value| ==> c.result.value[k] == ShortName(Generators(reply.models)[k]))
  {
    if !hasKey then Call(Err(NoKey), false)
    else match reply
      case ModelsError(m) => Call(Err(m), true)
      case ModelList(ms) =>
        var gs := Generators(ms);
        Call(Ok(seq(|gs|, k requires 0 <= k < |gs| => ShortName(gs[k]))), true)
  }

  /** A listed name of the form `models/<id>` is offered as `<id>`. */
  lemma ShortNameStripsPrefix(m: ModelInfo, id: string)
    requires m.name == "models/" + id
    ensures ShortName(m) == id
  {
    assert StartsWith(m.name, "models/") by {
      assert m.name[..7] == "models/";
    }
  }

  /** The filter keeps the list order: filtering a list split in two gives
      the filtered first part followed by the filtered second part. */
  lemma {:induction false} GeneratorsKeepOrder(a: seq<ModelInfo>, b: seq<ModelInfo>)
    ensures Generators(a + b) == Generators(a) + Generators(b)
  {
    if a == [] {
      assert a + b == b;
    } else {
      var h := if Generates(a[0]) then [a[0]] else [];
      calc {
        Generators(a + b);
        == { assert a + b == [a[0]] + (a[1..] + b); }
        Generators([a[0]] + (a[1..] + b));
        == { GeneratorsCons(a[0], a[1..] + b); }
        h + Generators(a[1..] + b);
        == { GeneratorsKeepOrder(a[1..], b); }
        h + (Generators(a[1..]) + Generators(b));
        ==
        (h + Generators(a[1..])) + Generators(b);
        == { GeneratorsCons(a[0], a[1..]); assert a == [a[0]] + a[1..]; }
        Generators(a) + Generators(b);
      }
    }
  }

  lemma GeneratorsCons(m: ModelInfo, ms: seq<ModelInfo>)
    ensures Generators([m] + ms) == (if Generates(m) then [m] else []) + Generators(ms)
  {
    assert ([m] + ms)[1..] == ms;
  }

  // ---------------------------------------------------------------------------
  // callGeminiAPI
  // ---------------------------------------------------------------------------

  /** A part of a candidate's content; `text` is absent when not given. */
  datatype Part = Part(text: Option<string>)

  /** A candidate; `parts` is absent when the candidate has no content or no parts. */
  datatype Candidate = Candidate(parts: Option<seq<Part>>)

  /** The JSON of a generation call. */
  datatype GenerateReply =
    | GenerateError(message: string)
    | Generated(candidates: Option<seq<Candidate>>)

  /** A part whose text is truthy: present and not empty. */
  predicate HasText(p: Part) {
    p.text.Some? && p.text.value != ""
  }

  /** `parts.find(p => p.text)?.text`. */
  function FirstText(ps: seq<Part>): (r: Option<string>)
    ensures r.Some? ==> exists k :: (0 <= k < |ps| && HasText(ps[k]) && r.value == ps[k].text.value
      && forall j :: 0 <= j < k ==> !HasText(ps[j]))
    ensures r.None? <==> forall j :: 0 <= j < |ps| ==> !HasText(ps[j])
  {
    if ps == [] then None
    else if HasText(ps[0]) then Some(ps[0].text.value)
    else
      var r := FirstText(ps[1..]);
      if r.Some? then
        var k :| 0 <= k < |ps[1..]| && HasText(ps[1..][k]) && r.value == ps[1..][k].text.value
          && forall j :: 0 <= j < k ==> !HasText(ps[1..][j]);
        assert HasText(ps[k + 1]) && forall j :: 0 <= j < k + 1 ==> !HasText(ps[j]);
        r
      else
        assert forall j :: 1 <= j < |ps| ==> ps[j] == ps[1..][j - 1];
        r
  }

  /** `callGeminiAPI(prompt, model)` against the reply `reply`. */
  function CallGemini(hasKey: bool, reply: GenerateReply): (c: Call<string>)
    ensures !hasKey ==> c == Call(Err(NoKey), false)
    ensures hasKey ==> c.requested
    ensures hasKey && reply.GenerateError? ==> c.result == Err(reply.message)
    ensures hasKey && reply.Generated? && (reply.candidates.None? || reply.candidates.value == [])
      ==> c.result == Err(NoResponse)
    ensures c.result.Ok? ==> c.result.value != ""
  {
    if !hasKey then Call(Err(NoKey), false)
    else match reply
      case GenerateError(m) => Call(Err(m), true)
      case Generated(cs) =>
        if cs.None? || cs.value == [] then Call(Err(NoResponse), true)
        else
          var first := cs.value[0];
          var text := if first.parts.Some? then FirstText(first.parts.value) else None;
          if text.None? then Call(Err(NoText), true)
          else Call(Ok(text.value), true)
  }

  /** The call succeeds exactly when the first candidate has a part with
      non-empty text, and then answers the text of the first such part. */
  lemma CallGeminiSpec(reply: GenerateReply)
    ensures var c := CallGemini(true, reply);
      && (c.result.Ok? <==>
            reply.Generated? && reply.candidates.Some? && reply.candidates.value != []
            && reply.candidates.value[0].parts.Some?
            && exists k :: 0 <= k < |reply.candidates.value[0].parts.value|
                 && HasText(reply.candidates.value[0].parts.value[k]))
      && (c.result.Ok? ==>
            var ps := reply.candidates.value[0].parts.value;
            exists k :: 0 <= k < |ps| && HasText(ps[k]) && c.result.value == ps[k].text.value
              && forall j :: 0 <= j < k ==> !HasText(ps[j]))
  {
  }

  // ---------------------------------------------------------------------------
  // Per-match derivations of buildPrompt
  // ---------------------------------------------------------------------------

  /** A unit as the prompt describes it. */
  datatype UnitView = UnitView(name: string, tier: int, starLevel: int, items: seq<string>)

  /** `u.tier === 1 ? (u.rarity >= 3 ? 3 : u.rarity >= 2 ? 2 : 1) : 1`. */
  function StarLevel(u: Unit): (s: int)
    ensures 1 <= s <= 3
    ensures u.tier != 1 ==> s == 1
    ensures u.tier == 1 ==> (s == 3 <==> u.rarity >= 3) && (s == 1 <==> u.rarity < 2)
  {
    if u.tier == 1 then (if u.rarity >= 3 then 3 else if u.rarity >= 2 then 2 else 1) else 1
  }

  /** A higher rarity never lowers the star level. */
  lemma StarLevelMonotone(u: Unit, v: Unit)
    requires u.tier == v.tier && u.rarity <= v.rarity
    ensures StarLevel(u) <= StarLevel(v)
  {
  }

  /** An item name with `TFT_Item_` and then `TFT16_Item_` removed once each. */
  function ItemLabel(x: string): (r: string)
    ensures !Contains(x, "TFT_Item_") && !Contains(x, "TFT16_Item_") ==> r == x
    ensures StartsWith(x, "TFT_Item_") && !Contains(x[9..], "TFT16_Item_") ==> x == "TFT_Item_" + r
  {
    var once := ReplaceFirst(x, "TFT_Item_", "");
    assert StartsWith(x, "TFT_Item_") ==> once == x[9..] && x == x[..9] + once;
    ReplaceFirst(once, "TFT16_Item_", "")
  }

  /** The prompt's view of a unit: `TFT16_` dropped from the id once, its
      item labels (none when `itemNames` is absent). */
  function ViewUnit(u: Unit): (v: UnitView)
    ensures v.tier == u.tier && v.starLevel == StarLevel(u)
    ensures u.itemNames.None? ==> v.items == []
    ensures u.itemNames.Some? ==> (|v.items| == |u.itemNames.value|
      && forall i :: 0 <= i < |v.items| ==> v.items[i] == ItemLabel(u.itemNames.value[i]))
  {
    var items := if u.itemNames.Some? then
        seq(|u.itemNames.value|, i requires 0 <= i < |u.itemNames.value| => ItemLabel(u.itemNames.value[i]))
      else [];
    UnitView(ReplaceFirst(u.characterId, "TFT16_", ""), u.tier, StarLevel(u), items)
  }

  function ViewUnits(us: seq<Unit>): (vs: seq<UnitView>)
    ensures |vs| == |us|
    ensures forall i :: 0 <= i < |us| ==> vs[i] == ViewUnit(us[i])
  {
    seq(|us|, i requires 0 <= i < |us| => ViewUnit(us[i]))
  }

  /** A core champion: tier 3 or more, or at least two items. */
  predicate IsCore(u: UnitView) {
    u.tier >= 3 || |u.items| >= 2
  }

  /** The filter of the upgrade analysis, written with its operands the other way round. */
  predicate IsUpgraded(u: UnitView) {
    |u.items| >= 2 || u.tier >= 3
  }

  function CoreChamps(us: seq<UnitView>): (r: seq<UnitView>)
    ensures |r| <= |us|
    ensures forall u :: u in r <==> u in us && IsCore(u)
  {
    if us == [] then []
    else (if IsCore(us[0]) then [us[0]] else []) + CoreChamps(us[1..])
  }

  /** One unit is kept exactly when it is a core champion. */
  lemma CoreChampsSingle(u: UnitView)
    ensures CoreChamps([u]) == if IsCore(u) then [u] else []
  {
    assert [u][1..] == [];
  }

  /** The filter distributes over concatenation, so it keeps the order and the
      multiplicity of the core champions. */
  lemma {:induction false} CoreChampsConcat(a: seq<UnitView>, b: seq<UnitView>)
    ensures CoreChamps(a + b) == CoreChamps(a) + CoreChamps(b)
    decreases |a|
  {
    if a != [] {
      assert (a + b)[0] == a[0];
      assert (a + b)[1..] == a[1..] + b;
      CoreChampsConcat(a[1..], b);
    } else {
      assert a + b == b;
    }
  }

  function UpgradedChamps(us: seq<UnitView>): (r: seq<UnitView>)
    ensures forall u :: u in r ==> u in us && IsUpgraded(u)
  {
    if us == [] then []
    else (if IsUpgraded(us[0]) then [us[0]] else []) + UpgradedChamps(us[1..])
  }

  /** The upgraded champions are exactly the core champions, in the same order. */
  lemma {:induction false} UpgradedAreCore(us: seq<UnitView>)
    ensures UpgradedChamps(us) == CoreChamps(us)
  {
    if us != [] {
      UpgradedAreCore(us[1..]);
    }
  }

  /** `Strong` with three core champions or more, `Medium` with two, else `Weak`. */
  function CompStrength(coreCount: int): (s: string)
    ensures s == "Strong" <==> coreCount >= 3
    ensures s == "Medium" <==> coreCount == 2
    ensures s == "Weak" <==> coreCount < 2
  {
    if coreCount >= 3 then "Strong" else if coreCount >= 2 then "Medium" else "Weak"
  }

  /** `level <= 7 ? 'Early upgrade' : level <= 8 ? 'Mid upgrade' : 'Late upgrade'`;
      an absent level (`undefined`) compares false and falls to the last case. */
  function UpgradeTiming(level: Option<int>): (t: string)
    ensures t == "Early upgrade" <==> level.Some? && level.value <= 7
    ensures t == "Mid upgrade" <==> level.Some? && level.value == 8
    ensures t == "Late upgrade" <==> level.None? || level.value > 8
  {
    if level.Some? && level.value <= 7 then "Early upgrade"
    else if level.Some? && level.value <= 8 then "Mid upgrade"
    else "Late upgrade"
  }

  /** `t.replace('TFT16_', '').split('_')[0]`: the trait's name part. */
  function TraitName(t: string): (r: string)
    ensures '_' !in r
  {
    Split(ReplaceFirst(t, "TFT16_", ""), '_')[0]
  }

  /** The early traits: the names of the traits that mention `TFT16_`, in order. */
  function EarlyTraits(traits: seq<string>): (r: seq<string>)
    ensures |r| <= |traits|
  {
    if traits == [] then []
    else (if Contains(traits[0], "TFT16_") then [TraitName(traits[0])] else []) + EarlyTraits(traits[1..])
  }

  /** `TFT16_name_rest` and `TFT16_name` are both named `name`. */
  lemma {:induction false} TraitNameOfSetTrait(n: string, rest: string)
    requires '_' !in n
    ensures TraitName("TFT16_" + n + "_" + rest) == n
    ensures TraitName("TFT16_" + n) == n
  {
    var t := "TFT16_" + n + "_" + rest;
    assert t[..|"TFT16_"|] == "TFT16_";
    assert StartsWith(t, "TFT16_");
    assert t[|"TFT16_"|..] == n + ['_'] + rest;
    assert ReplaceFirst(t, "TFT16_", "") == n + ['_'] + rest;
    SplitAtFirst(n, '_', rest);
    assert Split(n + ['_'] + rest, '_')[0] == n;
    var u := "TFT16_" + n;
    assert u[..|"TFT16_"|] == "TFT16_";
    assert StartsWith(u, "TFT16_");
    assert u[|"TFT16_"|..] == n;
    assert ReplaceFirst(u, "TFT16_", "") == n;
    SplitNoSeparator(n, '_');
  }

  /** A trait that does not mention `TFT16_` keeps its first part as its name. */
  lemma {:induction false} TraitNameOfOtherTrait(a: string, rest: string)
    requires '_' !in a && !Contains(a + "_" + rest, "TFT16_")
    ensures TraitName(a + "_" + rest) == a
  {
    assert a + "_" + rest == a + ['_'] + rest;
    SplitAtFirst(a, '_', rest);
  }

  /** A single trait contributes its name exactly when it mentions `TFT16_`. */
  lemma EarlyTraitsSingle(t: string)
    ensures EarlyTraits([t]) == if Contains(t, "TFT16_") then [TraitName(t)] else []
  {
    assert [t][1..] == [];
  }

  /** Filtering and naming distribute over concatenation: the early traits of a
      list are those of its parts, in order. */
  lemma {:induction false} EarlyTraitsConcat(a: seq<string>, b: seq<string>)
    ensures EarlyTraits(a + b) == EarlyTraits(a) + EarlyTraits(b)
    decreases |a|
  {
    if a != [] {
      assert (a + b)[0] == a[0];
      assert (a + b)[1..] == a[1..] + b;
      EarlyTraitsConcat(a[1..], b);
    } else {
      assert a + b == b;
    }
  }

  /** A name is early exactly when some trait mentioning `TFT16_` carries it. */
  lemma {:induction false} EarlyTraitsMembers(traits: seq<string>, x: string)
    ensures x in EarlyTraits(traits) <==>
      exists i :: 0 <= i < |traits| && Contains(traits[i], "TFT16_") && TraitName(traits[i]) == x
    decreases |traits|
  {
    if traits != [] {
      var tail := traits[1..];
      EarlyTraitsMembers(tail, x);
      assert EarlyTraits(traits) == (if Contains(traits[0], "TFT16_") then [TraitName(traits[0])] else []) + EarlyTraits(tail);
      if x in EarlyTraits(traits) {
        if !(Contains(traits[0], "TFT16_") && TraitName(traits[0]) == x) {
          assert x in EarlyTraits(tail);
          var i :| 0 <= i < |tail| && Contains(tail[i], "TFT16_") && TraitName(tail[i]) == x;
          assert traits[i + 1] == tail[i];
        }
      }
      if exists i :: 0 <= i < |traits| && Contains(traits[i], "TFT16_") && TraitName(traits[i]) == x {
        var i :| 0 <= i < |traits| && Contains(traits[i], "TFT16_") && TraitName(traits[i]) == x;
        if i > 0 {
          assert tail[i - 1] == traits[i];
          assert x in EarlyTraits(tail);
        }
      }
    }
  }

  /** One opener rule: a trait name and the champions that signal it. */
  datatype OpenerRule = OpenerRule(origin: string, champs: seq<string>, kind: string)

  const Unknown := "Unknown"

  /** The rules in the order they are tried. */
  const OpenerRules: seq<OpenerRule> := [
    OpenerRule("Bilgewater", ["Illaoi", "Graves", "Twisted Fate", "Gangplank"], "Bilgewater Opener"),
    OpenerRule("Ionia", ["Briar", "Jhin", "Shen", "Yasuo"], "Ionia Opener"),
    OpenerRule("Demacia", ["Jarvan IV", "Lulu", "Sona", "Neeko"], "Demacia Opener"),
    OpenerRule("Noxus", ["Briar", "Qiyana", "Cho'Gath", "Sion"], "Noxus Opener"),
    OpenerRule("Freljord", ["Anivia", "Ashe", "Sejuani"], "Freljord Opener"),
    OpenerRule("Shadow Isles", ["Viego", "Yorick"], "Shadow Isles Opener")
  ]

  /** A rule applies when its trait is an early trait or one of its champions
      is an early champion (tier 2 or less). */
  predicate Applies(rule: OpenerRule, earlyTraits: seq<string>, earlyNames: seq<string>) {
    rule.origin in earlyTraits || exists i :: 0 <= i < |earlyNames| && earlyNames[i] in rule.champs
  }

  /** The opener kind of the first rule that applies, or `Unknown`. */
  function FirstOpener(rules: seq<OpenerRule>, earlyTraits: seq<string>, earlyNames: seq<string>): (r: string)
    requires forall k :: 0 <= k < |rules| ==> rules[k].kind != Unknown
    ensures r == Unknown <==> forall k :: 0 <= k < |rules| ==> !Applies(rules[k], earlyTraits, earlyNames)
    ensures r != Unknown ==> exists k :: (0 <= k < |rules| && Applies(rules[k], earlyTraits, earlyNames)
      && r == rules[k].kind
      && forall j :: 0 <= j < k ==> !Applies(rules[j], earlyTraits, earlyNames))
  {
    if rules == [] then Unknown
    else if Applies(rules[0], earlyTraits, earlyNames) then rules[0].kind
    else
      var r := FirstOpener(rules[1..], earlyTraits, earlyNames);
      assert forall k :: 1 <= k < |rules| ==> rules[k] == rules[1..][k - 1];
      if r != Unknown then
        var k :| 0 <= k < |rules[1..]| && Applies(rules[1..][k], earlyTraits, earlyNames)
          && r == rules[1..][k].kind
          && forall j :: 0 <= j < k ==> !Applies(rules[1..][j], earlyTraits, earlyNames);
        assert Applies(rules[k + 1], earlyTraits, earlyNames);
        r
      else
        r
  }

  /** The names of the units of tier 2 or less, in order. */
  function EarlyNames(us: seq<UnitView>): (r: seq<string>)
    ensures |r| <= |us|
    ensures forall x :: x in r <==> exists i :: 0 <= i < |us| && us[i].tier <= 2 && us[i].name == x
  {
    if us == [] then []
    else
      var rest := EarlyNames(us[1..]);
      assert forall i :: 1 <= i < |us| ==> us[i] == us[1..][i - 1];
      (if us[0].tier <= 2 then [us[0].name] else []) + rest
  }

  /** The early names of joined unit lists are those of each part, in order. */
  lemma {:induction false} EarlyNamesConcat(a: seq<UnitView>, b: seq<UnitView>)
    ensures EarlyNames(a + b) == EarlyNames(a) + EarlyNames(b)
    decreases |a|
  {
    if a != [] {
      assert (a + b)[0] == a[0];
      assert (a + b)[1..] == a[1..] + b;
      EarlyNamesConcat(a[1..], b);
    } else {
      assert a + b == b;
    }
  }

  function OpenerType(earlyTraits: seq<string>, earlyNames: seq<string>): (r: string)
    ensures r == Unknown <==> forall k :: 0 <= k < |OpenerRules| ==> !Applies(OpenerRules[k], earlyTraits, earlyNames)
    ensures r != Unknown ==> exists k :: 0 <= k < |OpenerRules| && r == OpenerRules[k].kind
  {
    FirstOpener(OpenerRules, earlyTraits, earlyNames)
  }

  /** Briar signals both Ionia and Noxus; Ionia is tried first and wins unless
      a Bilgewater rule applies. */
  lemma BriarIsIonia(earlyTraits: seq<string>, earlyNames: seq<string>)
    requires "Briar" in earlyNames
    requires !Applies(OpenerRules[0], earlyTraits, earlyNames)
    ensures OpenerType(earlyTraits, earlyNames) == "Ionia Opener"
  {
    var i :| 0 <= i < |earlyNames| && earlyNames[i] == "Briar";
    assert earlyNames[i] in OpenerRules[1].champs;
    assert Applies(OpenerRules[1], earlyTraits, earlyNames);
  }

  /** The derived record of one match. */
  datatype MatchRecord = MatchRecord(
    game: int,
    placement: Option<int>,
    opener: string,
    coreChamps: seq<UnitView>,
    strength: string,
    timing: string,
    earlyTraits: seq<string>)

  function SummaryUnits(m: Match): seq<Unit> {
    if m.summary.Some? && m.summary.value.units.Some? then m.summary.value.units.value else []
  }

  function SummaryTraits(m: Match): seq<string> {
    if m.summary.Some? && m.summary.value.traits.Some? then m.summary.value.traits.value else []
  }

  function SummaryLevel(m: Match): Option<int> {
    if m.summary.Some? then m.summary.value.level else None
  }

  /** The record of the match at index `i`. */
  function Derive(m: Match, i: int): (r: MatchRecord)
    ensures r.game == i + 1 && r.placement == m.placement
    ensures r.strength == CompStrength(|r.coreChamps|)
  {
    var units := ViewUnits(SummaryUnits(m));
    var core := CoreChamps(units);
    var early := EarlyTraits(SummaryTraits(m));
    MatchRecord(i + 1, m.placement, OpenerType(early, EarlyNames(units)), core,
                CompStrength(|core|), UpgradeTiming(SummaryLevel(m)), early)
  }

  /** `matches.map((m, i) => ...)`: one record per match, numbered from 1. */
  function MatchData(ms: seq<Match>): (r: seq<MatchRecord>)
    ensures |r| == |ms|
    ensures forall i :: 0 <= i < |ms| ==> r[i].game == i + 1 && r[i].placement == ms[i].placement
  {
    seq(|ms|, i requires 0 <= i < |ms| => Derive(ms[i], i))
  }

  /** The prompt's counts: matches, `placement <= 4` (a `null` placement
      compares as 0 and is counted) and `placement === 1`. */
  datatype PromptStats = PromptStats(count: nat, top4: nat, wins: nat)

  function Top4(ms: seq<Match>): (n: nat)
    ensures n <= |ms|
  {
    if ms == [] then 0 else (if Helpers.Numeric(ms[0].placement) <= 4 then 1 else 0) + Top4(ms[1..])
  }

  function Wins(ms: seq<Match>): (n: nat)
    ensures n <= |ms|
  {
    if ms == [] then 0 else (if ms[0].placement == Some(1) then 1 else 0) + Wins(ms[1..])
  }

  function Stats(ms: seq<Match>): (s: PromptStats)
    ensures s.count == |ms| && s.top4 <= s.count && s.wins <= s.count
  {
    PromptStats(|ms|, Top4(ms), Wins(ms))
  }

  /** Every win is a top-4 finish. */
  lemma {:induction false} WinsWithinTop4(ms: seq<Match>)
    ensures Wins(ms) <= Top4(ms)
  {
    if ms != [] {
      WinsWithinTop4(ms[1..]);
    }
  }

  /** One match is a top-4 finish when its placement compares `<= 4`, and a win
      when it is exactly 1. */
  lemma CountsOfOne(m: Match)
    ensures Top4([m]) == (if Helpers.Numeric(m.placement) <= 4 then 1 else 0)
    ensures Wins([m]) == (if m.placement == Some(1) then 1 else 0)
  {
    assert [m][1..] == [];
  }

  /** Both counts add up over consecutive runs of matches. */
  lemma {:induction false} CountsConcat(a: seq<Match>, b: seq<Match>)
    ensures Top4(a + b) == Top4(a) + Top4(b)
    ensures Wins(a + b) == Wins(a) + Wins(b)
    decreases |a|
  {
    if a != [] {
      assert (a + b)[0] == a[0];
      assert (a + b)[1..] == a[1..] + b;
      CountsConcat(a[1..], b);
    } else {
      assert a + b == b;
    }
  }

  /** A match with no recorded placement still counts as a top-4 finish. */
  lemma NullPlacementCountsTop4(m: Match)
    requires m.placement.None?
    ensures Top4([m]) == 1 && Wins([m]) == 0
  {
  }
}
