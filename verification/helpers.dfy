/** The shared helpers of js/utils/helpers.js: placement colour buckets and
    quote escaping for inline handlers. */
module Helpers {
  import opened Wrappers
  import opened Text

  /** A placement as relational operators see it: `null` compares as 0. */
  function Numeric(p: Option<int>): int {
    p.GetOr(0)
  }

  /** `getPlacementColor`: top 2 green, top 4 yellow, top 6 orange, else red. */
  function PlacementColor(p: int): (c: string)
    ensures c == "green" <==> p <= 2
    ensures c == "yellow" <==> 2 < p <= 4
    ensures c == "orange" <==> 4 < p <= 6
    ensures c == "red" <==> p > 6
  {
    if p <= 2 then "green"
    else if p <= 4 then "yellow"
    else if p <= 6 then "orange"
    else "red"
  }

  /** `getPlacementHexColor`. */
  function PlacementHexColor(p: int): (h: string)
    ensures h == "#38a169" <==> PlacementColor(p) == "green"
    ensures h == "#d69e2e" <==> PlacementColor(p) == "yellow"
    ensures h == "#dd6b20" <==> PlacementColor(p) == "orange"
    ensures h == "#e53e3e" <==> PlacementColor(p) == "red"
  {
    if p <= 2 then "#38a169"
    else if p <= 4 then "#d69e2e"
    else if p <= 6 then "#dd6b20"
    else "#e53e3e"
  }

  /** The hex colour is a function of the colour class and tells the classes
      apart: both use the same bucket boundaries. */
  lemma HexFollowsColor(p: int, q: int)
    ensures PlacementColor(p) == PlacementColor(q) <==> PlacementHexColor(p) == PlacementHexColor(q)
  {
  }

  /** `str.replace(/'/g, "\\'")`. */
  function EscapeQuotes(s: string): (r: string)
    ensures |r| == |s| + Count(s, '\'')
  {
    if s == [] then []
    else (if s[0] == '\'' then ['\\', '\''] else [s[0]]) + EscapeQuotes(s[1..])
  }

  /** The inverse: a backslash followed by a quote becomes the quote. */
  function Unescape(r: string): string
    decreases |r|
  {
    if r == [] then []
    else if |r| >= 2 && r[0] == '\\' && r[1] == '\'' then "'" + Unescape(r[2..])
    else [r[0]] + Unescape(r[1..])
  }

  lemma {:induction false} EscapeStartsClean(s: string)
    requires s != []
    ensures EscapeQuotes(s)[0] != '\''
  {
  }

  /** Escaping loses nothing: unescaping gives the input back, so every
      character other than a quote is left as it was. */
  lemma {:induction false} UnescapeEscape(s: string)
    ensures Unescape(EscapeQuotes(s)) == s
  {
    if s != [] {
      UnescapeEscape(s[1..]);
      var rest := EscapeQuotes(s[1..]);
      if s[0] == '\'' {
        assert EscapeQuotes(s) == ['\\', '\''] + rest;
        assert EscapeQuotes(s)[2..] == rest;
      } else {
        assert EscapeQuotes(s) == [s[0]] + rest;
        assert EscapeQuotes(s)[1..] == rest;
        if s[0] == '\\' && rest != [] {
          EscapeStartsClean(s[1..]);
        }
      }
    }
  }

  /** Every quote of `r` directly follows a backslash. */
  predicate QuotesFollowBackslash(r: string) {
    forall i :: 0 <= i < |r| && r[i] == '\'' ==> i > 0 && r[i - 1] == '\\'
  }

  /** In the escaped text every quote directly follows a backslash. */
  lemma {:induction false} QuotesEscaped(s: string)
    ensures QuotesFollowBackslash(EscapeQuotes(s))
  {
    if s != [] {
      QuotesEscaped(s[1..]);
      var rest := EscapeQuotes(s[1..]);
      var head: string := if s[0] == '\'' then ['\\', '\''] else [s[0]];
      var r := EscapeQuotes(s);
      assert r == head + rest;
      forall i | 0 <= i < |r| && r[i] == '\''
        ensures i > 0 && r[i - 1] == '\\'
      {
        if i < |head| {
          assert r[i] == head[i];
          if s[0] == '\'' {
            assert i == 1 && r[0] == '\\';
          }
        } else {
          assert r[i] == rest[i - |head|];
          if i - |head| > 0 {
            var k := i - |head|;
            assert rest[k] == '\'';
            assert r[i - 1] == rest[k - 1];
          }
        }
      }
    }
  }

  /** The escaped text holds as many quotes as the input. */
  lemma {:induction false} QuoteCountKept(s: string)
    ensures Count(EscapeQuotes(s), '\'') == Count(s, '\'')
  {
    if s != [] {
      QuoteCountKept(s[1..]);
      var head: string := if s[0] == '\'' then ['\\', '\''] else [s[0]];
      CountConcat(head, EscapeQuotes(s[1..]), '\'');
    }
  }
}
