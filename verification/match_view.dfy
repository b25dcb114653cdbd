/** The pure parts of the match-history view (js/components/matchHistoryModal.js):
    asset names, placement labels, relative times, and the traits and units
    a match card shows. */
module MatchView {
  import opened Wrappers
  import opened Text
  import opened StableSort
  import opened Profiles

  const CdragonBase := "https://raw.communitydragon.org/latest/game"
  const CharactersDir := CdragonBase + "/assets/characters/"
  const ItemIconsDir := CdragonBase + "/assets/maps/particles/tft/item_icons/standard/"
  const ItemPrefix := "TFT_Item_"

  // ---------------------------------------------------------------------------
  // Asset names
  // ---------------------------------------------------------------------------

  /** `getChampionIcon`: the lower-cased id names both the folder and the file. */
  function ChampionIcon(characterId: string): (path: string)
    ensures StartsWith(path, CharactersDir)
    ensures |path| == |CharactersDir| + 2 * |characterId| + 26
    ensures path[|CharactersDir|..|CharactersDir| + |characterId|] == ToLower(characterId)
  {
    var id := ToLower(characterId);
    var path := CharactersDir + id + "/hud/" + id + "_square.tft_set16.png";
    assert path == CharactersDir + id + ("/hud/" + id + "_square.tft_set16.png");
    assert path[..|CharactersDir|] == CharactersDir;
    assert path[|CharactersDir|..|CharactersDir| + |id|] == id;
    path
  }

  /** `s.replace(/^p/, '')`. */
  function StripPrefix(s: string, p: string): (r: string)
    ensures StartsWith(s, p) ==> s == p + r
    ensures !StartsWith(s, p) ==> r == s
  {
    if StartsWith(s, p) then s[|p|..] else s
  }

  /** `s.replace(/([A-Z])/g, '_$1')`: an underscore before every capital. */
  function MarkCapitals(s: string): (r: string)
    ensures |r| == |s| + CountUpper(s)
  {
    if s == [] then []
    else (if IsUpper(s[0]) then ['_', s[0]] else [s[0]]) + MarkCapitals(s[1..])
  }

  function CountUpper(s: string): nat {
    if s == [] then 0 else (if IsUpper(s[0]) then 1 else 0) + CountUpper(s[1..])
  }

  /** `s.replace(/^_/, '')`. */
  function DropLeadingUnderscore(s: string): (r: string)
    ensures s != [] && s[0] == '_' ==> s == "_" + r
    ensures !(s != [] && s[0] == '_') ==> r == s
  {
    if s != [] && s[0] == '_' then s[1..] else s
  }

  /** The asset name `getItemIcon` derives from an item name. */
  function ItemAssetName(itemName: string): string {
    ToLower(DropLeadingUnderscore(MarkCapitals(StripPrefix(itemName, ItemPrefix))))
  }

  /** `getItemIcon`. */
  function ItemIcon(itemName: string): (path: string)
    ensures StartsWith(path, ItemIconsDir) && |path| == |ItemIconsDir| + |ItemAssetName(itemName)| + 4
    ensures path[|ItemIconsDir|..|path| - 4] == ItemAssetName(itemName)
    ensures path[|path| - 4..] == ".png"
  {
    var path := ItemIconsDir + ItemAssetName(itemName) + ".png";
    assert path[..|ItemIconsDir|] == ItemIconsDir;
    assert path[|ItemIconsDir|..|path| - 4] == ItemAssetName(itemName);
    assert path[|path| - 4..] == ".png";
    path
  }

  lemma NoUpperConcat(a: string, b: string)
    ensures NoUpper(a + b) <==> NoUpper(a) && NoUpper(b)
  {
    if NoUpper(a) && NoUpper(b) {
      forall i | 0 <= i < |a + b| ensures !IsUpper((a + b)[i]) {
        if i >= |a| {
          assert (a + b)[i] == b[i - |a|];
        }
      }
    }
    if NoUpper(a + b) {
      forall i | 0 <= i < |a| ensures !IsUpper(a[i]) {
        assert (a + b)[i] == a[i];
      }
      forall i | 0 <= i < |b| ensures !IsUpper(b[i]) {
        assert (a + b)[|a| + i] == b[i];
      }
    }
  }

  /** Champion ids are matched without regard to case: two ids give the same
      icon exactly when they agree once lower-cased. */
  lemma ChampionIconIgnoresCase(a: string, b: string)
    ensures ChampionIcon(a) == ChampionIcon(b) <==> ToLower(a) == ToLower(b)
  {
    var x, y := ToLower(a), ToLower(b);
    if ChampionIcon(a) == ChampionIcon(b) {
      var u, v := ChampionIcon(a), ChampionIcon(b);
      assert |u| == |CharactersDir| + 2 * |x| + 26;
      assert |v| == |CharactersDir| + 2 * |y| + 26;
      assert |x| == |y|;
      assert u[|CharactersDir|..|CharactersDir| + |x|] == x;
      assert v[|CharactersDir|..|CharactersDir| + |y|] == y;
    }
  }

  /** The part of the champion URL taken from the id holds no capital letter. */
  lemma ChampionIconNoCapitals(characterId: string)
    ensures ChampionIcon(characterId) == ChampionIcon(ToLower(characterId))
    ensures NoUpper(ChampionIcon(characterId)[|CharactersDir|..|CharactersDir| + |characterId|])
  {
    var id := ToLower(characterId);
    ToLowerHasNoUpper(characterId);
    ToLowerOfLower(id);
    var u := ChampionIcon(characterId);
    assert u == CharactersDir + id + ("/hud/" + id + "_square.tft_set16.png");
    assert u[|CharactersDir|..|CharactersDir| + |characterId|] == id;
  }

  /** The item asset name holds no capital letter, and two items share an icon
      exactly when they share an asset name. */
  lemma ItemIconNoCapitals(itemName: string, other: string)
    ensures NoUpper(ItemAssetName(itemName))
    ensures ItemIcon(itemName) == ItemIcon(other) <==> ItemAssetName(itemName) == ItemAssetName(other)
  {
    ToLowerHasNoUpper(DropLeadingUnderscore(MarkCapitals(StripPrefix(itemName, ItemPrefix))));
    var x, y := ItemAssetName(itemName), ItemAssetName(other);
    if ItemIcon(itemName) == ItemIcon(other) {
      var u, v := ItemIcon(itemName), ItemIcon(other);
      assert |x| == |y|;
      assert u[|ItemIconsDir|..|ItemIconsDir| + |x|] == x;
      assert v[|ItemIconsDir|..|ItemIconsDir| + |y|] == y;
    }
  }

  /** The champion URL names the lower-cased id twice: as the folder and as
      the start of the file name. */
  lemma ChampionIdTwice(characterId: string)
    ensures var u := ChampionIcon(characterId);
      var id := ToLower(characterId);
      && StartsWith(u, CharactersDir + id + "/hud/" + id)
      && u[|CharactersDir|..|CharactersDir| + |id|] == id
      && u[|CharactersDir| + |id| + 5..|CharactersDir| + 2 * |id| + 5] == id
  {
    var id := ToLower(characterId);
    var u := ChampionIcon(characterId);
    var p := CharactersDir + id + "/hud/" + id;
    assert u == p + "_square.tft_set16.png";
    assert u[..|p|] == p;
    assert u[|CharactersDir|..|CharactersDir| + |id|] == p[|CharactersDir|..|CharactersDir| + |id|];
    assert u[|CharactersDir| + |id| + 5..|CharactersDir| + 2 * |id| + 5] == p[|CharactersDir| + |id| + 5..];
  }

  lemma MarkCapitalsCons(c: char, s: string)
    ensures MarkCapitals([c] + s) == (if IsUpper(c) then ['_', c] else [c]) + MarkCapitals(s)
  {
    assert ([c] + s)[1..] == s;
  }

  lemma {:induction false} MarkCapitalsConcat(a: string, b: string)
    ensures MarkCapitals(a + b) == MarkCapitals(a) + MarkCapitals(b)
  {
    if a == [] {
      assert a + b == b;
    } else {
      var h: string := if IsUpper(a[0]) then ['_', a[0]] else [a[0]];
      calc {
        MarkCapitals(a + b);
        == { assert a + b == [a[0]] + (a[1..] + b); }
        MarkCapitals([a[0]] + (a[1..] + b));
        == { MarkCapitalsCons(a[0], a[1..] + b); }
        h + MarkCapitals(a[1..] + b);
        == { MarkCapitalsConcat(a[1..], b); }
        h + (MarkCapitals(a[1..]) + MarkCapitals(b));
        ==
        (h + MarkCapitals(a[1..])) + MarkCapitals(b);
        == { MarkCapitalsCons(a[0], a[1..]); assert a == [a[0]] + a[1..]; }
        MarkCapitals(a) + MarkCapitals(b);
      }
    }
  }

  /** Text without capitals is left as it is. */
  lemma {:induction false} MarkCapitalsOfLower(s: string)
    requires NoUpper(s)
    ensures MarkCapitals(s) == s
  {
    if s != [] {
      MarkCapitalsOfLower(s[1..]);
      MarkCapitalsCons(s[0], s[1..]);
      assert s == [s[0]] + s[1..];
    }
  }

  /** A capitalised word gains one underscore, in front. */
  lemma MarkWord(c: char, rest: string)
    requires IsUpper(c) && NoUpper(rest)
    ensures MarkCapitals([c] + rest) == ['_', c] + rest
  {
    MarkCapitalsCons(c, rest);
    MarkCapitalsOfLower(rest);
  }

  /** A word of one capital followed by no capital. */
  predicate Capitalised(w: string) {
    |w| > 0 && IsUpper(w[0]) && NoUpper(w[1..])
  }

  /** The words written together, as in `GargoyleStoneplate`. */
  function Concat(ws: seq<string>): string {
    if ws == [] then "" else ws[0] + Concat(ws[1..])
  }

  lemma {:induction false} MarkWords(ws: seq<string>)
    requires |ws| > 0
    requires forall i :: 0 <= i < |ws| ==> Capitalised(ws[i])
    ensures MarkCapitals(Concat(ws)) == "_" + Join(ws, '_')
  {
    var w := ws[0];
    assert w == [w[0]] + w[1..];
    MarkWord(w[0], w[1..]);
    MarkCapitalsConcat(w, Concat(ws[1..]));
    if |ws| == 1 {
      assert Concat(ws[1..]) == "";
    } else {
      MarkWords(ws[1..]);
    }
  }

  /** The item names of the game: after the prefix, capitalised words written
      together; the asset name is those words lower-cased and joined by
      underscores, so `TFT_Item_GargoyleStoneplate` names `gargoyle_stoneplate`. */
  lemma ItemNameOfWords(ws: seq<string>)
    requires |ws| > 0
    requires forall i :: 0 <= i < |ws| ==> Capitalised(ws[i])
    ensures ItemAssetName(ItemPrefix + Concat(ws)) == ToLower(Join(ws, '_'))
  {
    var name := ItemPrefix + Concat(ws);
    assert name[..|ItemPrefix|] == ItemPrefix;
    assert StripPrefix(name, ItemPrefix) == Concat(ws);
    MarkWords(ws);
  }


  lemma {:induction false} EraseMarkCapitals(s: string)
    ensures Erase(MarkCapitals(s), '_') == Erase(s, '_')
  {
    if s != [] {
      EraseMarkCapitals(s[1..]);
      var head: string := if IsUpper(s[0]) then ['_', s[0]] else [s[0]];
      EraseConcat(head, MarkCapitals(s[1..]), '_');
      EraseConcat([s[0]], s[1..], '_');
      assert s == [s[0]] + s[1..];
      if IsUpper(s[0]) {
        EraseConcat(['_'], [s[0]], '_');
        assert head == ['_'] + [s[0]];
      }
    }
  }

  lemma {:induction false} EraseToLower(s: string)
    ensures Erase(ToLower(s), '_') == ToLower(Erase(s, '_'))
  {
    if s != [] {
      EraseToLower(s[1..]);
      assert ToLower(s) == [LowerChar(s[0])] + ToLower(s[1..]);
      EraseConcat([LowerChar(s[0])], ToLower(s[1..]), '_');
      EraseConcat([s[0]], s[1..], '_');
      assert s == [s[0]] + s[1..];
      ToLowerConcat([s[0]], Erase(s[1..], '_'));
    }
  }

  /** Apart from underscores, the asset name is the lower-cased item name
      without its prefix: the rewriting only adds and removes underscores. */
  lemma ItemNameKeepsLetters(itemName: string)
    ensures Erase(ItemAssetName(itemName), '_') == ToLower(Erase(StripPrefix(itemName, ItemPrefix), '_'))
  {
    var base := StripPrefix(itemName, ItemPrefix);
    var marked := MarkCapitals(base);
    var dropped := DropLeadingUnderscore(marked);
    EraseMarkCapitals(base);
    if marked != [] && marked[0] == '_' {
      EraseConcat("_", dropped, '_');
      assert marked == "_" + dropped;
    }
    EraseToLower(dropped);
  }

  // ---------------------------------------------------------------------------
  // Placement labels and time
  // ---------------------------------------------------------------------------

  /** `getPlacementClass`. */
  function PlacementClass(p: int): (c: string)
    ensures c == "placement-1" <==> p == 1
    ensures c == "placement-top4" <==> p != 1 && p <= 4
    ensures c == "placement-bot4" <==> p > 4
  {
    if p == 1 then "placement-1"
    else if p <= 4 then "placement-top4"
    else "placement-bot4"
  }

  /** Medals for the podium, keycaps for 4 to 8. */
  const Emojis: seq<string> := [
    "\U{1F947}", "\U{1F948}", "\U{1F949}",
    "4\U{FE0F}\U{20E3}", "5\U{FE0F}\U{20E3}", "6\U{FE0F}\U{20E3}",
    "7\U{FE0F}\U{20E3}", "8\U{FE0F}\U{20E3}"
  ]

  /** `getPlacementEmoji`: the emoji of placements 1 to 8, the decimal text otherwise. */
  function PlacementEmoji(p: int): (e: string)
    ensures !(1 <= p <= |Emojis|) ==> ParseInt(e) == Some(p)
  {
    if 1 <= p <= |Emojis| then Emojis[p - 1]
    else
      ParseIntToString(p);
      IntToString(p)
  }

  lemma {:induction false} EmojiNotNumber(k: int, n: int)
    requires 0 <= k < |Emojis|
    ensures Emojis[k] != IntToString(n)
  {
    var s := IntToString(n);
    var digits := NatToString(if n >= 0 then n else -n);
    assert forall i :: 0 <= i < |digits| ==> IsDigit(digits[i]);
    if k < 3 {
      assert |Emojis[k]| == 1 && !IsDigit(Emojis[k][0]) && Emojis[k][0] != '-';
      if n >= 0 {
        assert s == digits;
      } else {
        assert s[0] == '-';
      }
    } else {
      assert |Emojis[k]| == 3 && Emojis[k][1] == '\U{FE0F}';
      if n >= 0 {
        assert s == digits;
      } else {
        assert s == "-" + digits;
      }
    }
  }

  /** The label is one of the eight emoji exactly for placements 1 to 8;
      otherwise it reads back as the placement. */
  lemma PlacementEmojiSpec(p: int)
    ensures 1 <= p <= 8 ==> PlacementEmoji(p) == Emojis[p - 1]
    ensures !(1 <= p <= 8) ==> PlacementEmoji(p) !in Emojis && ParseInt(PlacementEmoji(p)) == Some(p)
  {
    if !(1 <= p <= 8) {
      ParseIntToString(p);
      forall k | 0 <= k < |Emojis| ensures Emojis[k] != PlacementEmoji(p) {
        EmojiNotNumber(k, p);
      }
    }
  }

  const MinuteMs := 60000
  const HourMs := 3600000
  const DayMs := 86400000

  /** `formatTimeAgo(timestamp)` at time `now`. */
  function TimeAgo(now: int, timestamp: int): (r: string)
    ensures r == "just now" <==> now - timestamp < MinuteMs
  {
    var diff := now - timestamp;
    if diff / DayMs > 0 then Ago(IntToString(diff / DayMs) + "d")
    else if diff / HourMs > 0 then Ago(IntToString(diff / HourMs) + "h")
    else if diff / MinuteMs > 0 then Ago(IntToString(diff / MinuteMs) + "m")
    else "just now"
  }

  /** `${n}${unit} ago`, which never reads `just now`. */
  function Ago(amount: string): (r: string)
    ensures r != "just now"
  {
    var r := amount + " ago";
    assert r[|r| - 1] == 'o';
    r
  }

  /** The largest whole number of `unit`s in `diff`: `Math.floor(diff / unit)`. */
  predicate WholeUnits(n: int, diff: int, unit: int) {
    n * unit <= diff < (n + 1) * unit
  }

  /** Days from one day on, else hours from one hour on, else minutes from one
      minute on, else "just now", which covers timestamps in the future too. */
  lemma TimeAgoBuckets(now: int, timestamp: int)
    ensures var diff := now - timestamp; var r := TimeAgo(now, timestamp);
      && (diff >= DayMs ==>
            exists n :: n >= 1 && WholeUnits(n, diff, DayMs) && r == IntToString(n) + "d ago")
      && (HourMs <= diff < DayMs ==>
            exists n :: 1 <= n < 24 && WholeUnits(n, diff, HourMs) && r == IntToString(n) + "h ago")
      && (MinuteMs <= diff < HourMs ==>
            exists n :: 1 <= n < 60 && WholeUnits(n, diff, MinuteMs) && r == IntToString(n) + "m ago")
      && (diff < MinuteMs ==> r == "just now")
  {
    var diff := now - timestamp;
    if diff >= DayMs {
      assert WholeUnits(diff / DayMs, diff, DayMs);
    } else if diff >= HourMs {
      var n := diff / HourMs;
      assert diff / DayMs == 0;
      assert WholeUnits(n, diff, HourMs);
      assert HourMs * n <= diff < HourMs * 24;
      MulCancel(HourMs, n, 24);
    } else if diff >= MinuteMs {
      var n := diff / MinuteMs;
      assert diff / DayMs == 0 && diff / HourMs == 0;
      assert WholeUnits(n, diff, MinuteMs);
      assert MinuteMs * n <= diff < MinuteMs * 60;
      MulCancel(MinuteMs, n, 60);
    } else {
      assert diff / DayMs <= 0 && diff / HourMs <= 0 && diff / MinuteMs <= 0;
    }
  }

  // ---------------------------------------------------------------------------
  // Traits and units of a match card
  // ---------------------------------------------------------------------------

  datatype TraitBadge = TraitBadge(name: string, count: int)

  /** A trait string such as `TFT16_Brawler_3`: the second part as the name
      (the whole string when that part is empty or absent) and the leading
      integer of the third part as the count (1 when absent, unparsable or 0). */
  function ParseTrait(t: string): (b: TraitBadge)
    ensures b.count != 0
  {
    var parts := Split(t, '_');
    var name := if |parts| > 1 && parts[1] != "" then parts[1] else t;
    var n := if |parts| > 2 then ParseInt(parts[2]) else None;
    TraitBadge(name, if n.Some? && n.value != 0 then n.value else 1)
  }

  /** A numeral never holds the trait separator. */
  lemma NumeralHasNoUnderscore(c: int)
    ensures '_' !in IntToString(c)
  {
    var d := NatToString(if c < 0 then -c else c);
    assert forall i :: 0 <= i < |d| ==> IsDigit(d[i]);
  }

  /** `set_name_count` reads back as the name and the count, a zero count
      falling back to 1. */
  lemma {:induction false} ParseTraitFull(p: string, n: string, c: int)
    requires '_' !in p && '_' !in n && n != ""
    ensures ParseTrait(p + "_" + n + "_" + IntToString(c)) == TraitBadge(n, if c == 0 then 1 else c)
  {
    var d := IntToString(c);
    NumeralHasNoUnderscore(c);
    assert p + "_" + n + "_" + d == p + ['_'] + (n + ['_'] + d);
    SplitAtFirst(p, '_', n + ['_'] + d);
    SplitAtFirst(n, '_', d);
    SplitNoSeparator(d, '_');
    assert Split(p + "_" + n + "_" + d, '_') == [p, n, d];
    ParseIntToString(c);
  }

  /** `set_name` with no count part counts 1. */
  lemma {:induction false} ParseTraitNoCount(p: string, n: string)
    requires '_' !in p && '_' !in n && n != ""
    ensures ParseTrait(p + "_" + n) == TraitBadge(n, 1)
  {
    assert p + "_" + n == p + ['_'] + n;
    SplitAtFirst(p, '_', n);
    SplitNoSeparator(n, '_');
    assert Split(p + "_" + n, '_') == [p, n];
  }

  /** A string without a separator is its own name, counted once. */
  lemma {:induction false} ParseTraitNoSeparator(t: string)
    requires '_' !in t
    ensures ParseTrait(t) == TraitBadge(t, 1)
  {
    SplitNoSeparator(t, '_');
  }

  /** An empty second part leaves the whole string as the name. */
  lemma {:induction false} ParseTraitEmptyName(p: string, rest: string)
    requires '_' !in p
    ensures ParseTrait(p + "__" + rest).name == p + "__" + rest
  {
    assert p + "__" + rest == p + ['_'] + ("" + ['_'] + rest);
    SplitAtFirst(p, '_', "" + ['_'] + rest);
    SplitAtFirst("", '_', rest);
    assert Split(p + "__" + rest, '_')[1] == "";
  }

  /** The badges with a count of at least 2, in order. */
  function Active(bs: seq<TraitBadge>): (r: seq<TraitBadge>)
    ensures |r| <= |bs|
    ensures forall i :: 0 <= i < |r| ==> r[i].count >= 2
  {
    if bs == [] then []
    else (if bs[0].count >= 2 then [bs[0]] else []) + Active(bs[1..])
  }

  function ParseTraits(traits: seq<string>): (bs: seq<TraitBadge>)
    ensures |bs| == |traits|
    ensures forall i :: 0 <= i < |traits| ==> bs[i] == ParseTrait(traits[i])
  {
    seq(|traits|, i requires 0 <= i < |traits| => ParseTrait(traits[i]))
  }

  const MaxTraits := 4
  const MaxUnits := 8

  /** The trait badges of a card. */
  function ShownTraits(traits: seq<string>): (r: seq<TraitBadge>)
    ensures |r| <= MaxTraits
    ensures forall i :: 0 <= i < |r| ==> r[i].count >= 2
  {
    var active := Active(ParseTraits(traits));
    active[..Min(|active|, MaxTraits)]
  }

  lemma {:induction false} ActiveConcat(a: seq<TraitBadge>, b: seq<TraitBadge>)
    ensures Active(a + b) == Active(a) + Active(b)
  {
    if a == [] {
      assert a + b == b;
    } else {
      var h := if a[0].count >= 2 then [a[0]] else [];
      calc {
        Active(a + b);
        == { assert a + b == [a[0]] + (a[1..] + b); }
        Active([a[0]] + (a[1..] + b));
        == { ActiveCons(a[0], a[1..] + b); }
        h + Active(a[1..] + b);
        == { ActiveConcat(a[1..], b); }
        h + (Active(a[1..]) + Active(b));
        ==
        (h + Active(a[1..])) + Active(b);
        == { ActiveCons(a[0], a[1..]); assert a == [a[0]] + a[1..]; }
        Active(a) + Active(b);
      }
    }
  }

  lemma ActiveCons(x: TraitBadge, bs: seq<TraitBadge>)
    ensures Active([x] + bs) == (if x.count >= 2 then [x] else []) + Active(bs)
  {
    assert ([x] + bs)[1..] == bs;
  }

  /** Every badge with a count of at least 2 is active. */
  lemma {:induction false} ActiveKeepsEvery(bs: seq<TraitBadge>, i: int)
    requires 0 <= i < |bs| && bs[i].count >= 2
    ensures bs[i] in Active(bs)
  {
    if i > 0 {
      ActiveKeepsEvery(bs[1..], i - 1);
      assert bs[1..][i - 1] == bs[i];
    }
  }

  lemma ParseTraitsConcat(a: seq<string>, b: seq<string>)
    ensures ParseTraits(a + b) == ParseTraits(a) + ParseTraits(b)
  {
    var l, r := ParseTraits(a + b), ParseTraits(a) + ParseTraits(b);
    assert |l| == |r|;
    forall i | 0 <= i < |l| ensures l[i] == r[i] {
      if i < |a| {
        assert (a + b)[i] == a[i];
      } else {
        assert (a + b)[i] == b[i - |a|];
      }
    }
  }

  /** The card shows the first four active traits of the match, in order: the
      traits of a longer list extend those of its prefix, and an active trait is
      shown as long as fewer than four active traits precede it. */
  lemma ShownTraitsSpec(traits: seq<string>, more: seq<string>)
    ensures var shown := ShownTraits(traits);
      var active := Active(ParseTraits(traits));
      && shown == active[..Min(|active|, MaxTraits)]
      && (|active| >= MaxTraits ==> ShownTraits(traits + more) == shown)
  {
    var active := Active(ParseTraits(traits));
    ParseTraitsConcat(traits, more);
    ActiveConcat(ParseTraits(traits), ParseTraits(more));
    var all := Active(ParseTraits(traits + more));
    if |active| >= MaxTraits {
      assert all[..MaxTraits] == active[..MaxTraits];
    }
  }

  function Tier(u: Unit): int {
    u.tier
  }

  /** The units of a card: by tier, highest first, ties in match order, at most eight. */
  function ShownUnits(units: seq<Unit>): (r: seq<Unit>)
    ensures |r| == Min(|units|, MaxUnits)
    ensures SortedDesc(r, Tier)
  {
    var sorted := SortDesc(units, Tier);
    sorted[..Min(|sorted|, MaxUnits)]
  }

  /** No unit left off the card has a higher tier than one shown, and units of
      one tier keep their order from the match. */
  lemma ShownUnitsSpec(units: seq<Unit>, k: int)
    ensures var sorted := SortDesc(units, Tier);
      var shown := ShownUnits(units);
      && (forall i, j :: 0 <= i < |shown| <= j < |sorted| ==> shown[i].tier >= sorted[j].tier)
      && multiset(sorted) == multiset(units)
      && WithKey(sorted, Tier, k) == WithKey(units, Tier, k)
  {
  }

  /** The item icons of a unit: the first three of its items. */
  function UnitItemIcons(u: Unit): (r: seq<string>)
    ensures u.itemNames.None? ==> r == []
    ensures u.itemNames.Some? ==> |r| == Min(|u.itemNames.value|, 3)
    ensures forall i :: 0 <= i < |r| ==> r[i] == ItemIcon(u.itemNames.value[i])
  {
    if u.itemNames.None? then []
    else
      var n := Min(|u.itemNames.value|, 3);
      seq(n, i requires 0 <= i < n => ItemIcon(u.itemNames.value[i]))
  }

  /** What a card reads from a match: `summary || {}` then `units || []` and `traits || []`. */
  function CardUnits(m: Match): seq<Unit> {
    if m.summary.Some? then m.summary.value.units.GetOr([]) else []
  }

  function CardTraits(m: Match): seq<string> {
    if m.summary.Some? then m.summary.value.traits.GetOr([]) else []
  }
}
