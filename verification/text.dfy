/** The JavaScript string primitives the source relies on: `toLowerCase`,
    `startsWith`/`includes`, `replace` of a plain pattern, `split` on one
    character, `toString` of an integer and `parseInt`. */
module Text {
  import opened Wrappers

  // ---------------------------------------------------------------------------
  // Case
  // ---------------------------------------------------------------------------

  /** The character class `[A-Z]`. */
  predicate IsUpper(c: char) {
    'A' <= c <= 'Z'
  }

  function LowerChar(c: char): (r: char)
    ensures !IsUpper(r)
    ensures IsUpper(c) ==> r as int == c as int + 32
    ensures !IsUpper(c) ==> r == c
  {
    if IsUpper(c) then (c as int + 32) as char else c
  }

  /** `String.prototype.toLowerCase`, restricted to ASCII letters. */
  function ToLower(s: string): (r: string)
    ensures |r| == |s|
    ensures forall i :: 0 <= i < |s| ==> r[i] == LowerChar(s[i])
  {
    seq(|s|, i requires 0 <= i < |s| => LowerChar(s[i]))
  }

  predicate NoUpper(s: string) {
    forall i :: 0 <= i < |s| ==> !IsUpper(s[i])
  }

  lemma ToLowerHasNoUpper(s: string)
    ensures NoUpper(ToLower(s))
  {
  }

  /** Lower-casing a string without capitals changes nothing. */
  lemma ToLowerOfLower(s: string)
    requires NoUpper(s)
    ensures ToLower(s) == s
  {
  }

  lemma ToLowerConcat(a: string, b: string)
    ensures ToLower(a + b) == ToLower(a) + ToLower(b)
  {
  }

  // ---------------------------------------------------------------------------
  // Searching and replacing
  // ---------------------------------------------------------------------------

  predicate StartsWith(s: string, p: string) {
    |p| <= |s| && s[..|p|] == p
  }

  /** `s.includes(p)`: `p` occurs at some position of `s`. */
  predicate Contains(s: string, p: string) {
    exists k :: 0 <= k <= |s| && StartsWith(s[k..], p)
  }

  /** The position of the first occurrence of `p` in `s` (`indexOf`), if any. */
  function FindFirst(s: string, p: string): (r: Option<nat>)
    ensures r.Some? ==> r.value <= |s| && StartsWith(s[r.value..], p)
    ensures r.Some? ==> forall j :: 0 <= j < r.value ==> !StartsWith(s[j..], p)
    ensures r.None? ==> forall j :: 0 <= j <= |s| ==> !StartsWith(s[j..], p)
    decreases |s|
  {
    if StartsWith(s, p) then Some(0)
    else if |s| == 0 then None
    else
      TailSuffixes(s);
      match FindFirst(s[1..], p)
      case Some(k) => Some(k + 1)
      case None => None
  }

  /** The suffixes of `s[1..]` are the suffixes of `s` that start after its head. */
  lemma TailSuffixes(s: string)
    requires |s| > 0
    ensures forall j :: 1 <= j <= |s| ==> s[1..][j - 1..] == s[j..]
  {
  }

  lemma FindFirstIffContains(s: string, p: string)
    ensures FindFirst(s, p).Some? <==> Contains(s, p)
  {
    if FindFirst(s, p).Some? {
      var k := FindFirst(s, p).value;
      assert 0 <= k <= |s| && StartsWith(s[k..], p);
    }
  }

  /** `p` occurs at position `k` of `s` and at no earlier position. */
  predicate FirstAt(s: string, p: string, k: int) {
    0 <= k && k + |p| <= |s| && StartsWith(s[k..], p)
    && forall j :: 0 <= j < k ==> !StartsWith(s[j..], p)
  }

  /** `s.replace(p, rep)` with a plain-string pattern: only the FIRST occurrence
      is replaced. */
  function ReplaceFirst(s: string, p: string, rep: string): (r: string)
    ensures !Contains(s, p) ==> r == s
    ensures StartsWith(s, p) ==> r == rep + s[|p|..]
    ensures Contains(s, p) ==> exists k :: (FirstAt(s, p, k) && r == s[..k] + rep + s[k + |p|..])
  {
    FindFirstIffContains(s, p);
    match FindFirst(s, p)
    case None => s
    case Some(k) =>
      assert StartsWith(s[k..], p);
      s[..k] + rep + s[k + |p|..]
  }

  // ---------------------------------------------------------------------------
  // Splitting on one character
  // ---------------------------------------------------------------------------

  /** The parts of `parts` glued back together with `c` between consecutive parts
      (`Array.prototype.join`). */
  function Join(parts: seq<string>, c: char): string
  {
    if |parts| == 0 then ""
    else if |parts| == 1 then parts[0]
    else parts[0] + [c] + Join(parts[1..], c)
  }

  /** `s.split(c)` for a one-character separator: the maximal separator-free
      pieces, empty ones included, so `"".split(c)` is `[""]`. */
  function Split(s: string, c: char): (parts: seq<string>)
    ensures |parts| >= 1
    ensures forall i :: 0 <= i < |parts| ==> c !in parts[i]
    ensures Join(parts, c) == s
    decreases |s|
  {
    if |s| == 0 then [""]
    else
      var rest := Split(s[1..], c);
      if s[0] == c then
        assert Join([""] + rest, c) == "" + [c] + Join(rest, c) by {
          assert ([""] + rest)[1..] == rest;
        }
        assert s == [s[0]] + s[1..];
        [""] + rest
      else
        var parts := [[s[0]] + rest[0]] + rest[1..];
        assert Join(parts, c) == [s[0]] + Join(rest, c) by {
          if |rest| > 1 {
            assert parts[1..] == rest[1..];
          }
        }
        assert s == [s[0]] + s[1..];
        parts
  }

  /** Splitting undoes joining when no part holds the separator. */
  lemma {:induction false} SplitJoin(parts: seq<string>, c: char)
    requires |parts| >= 1
    requires forall i :: 0 <= i < |parts| ==> c !in parts[i]
    ensures Split(Join(parts, c), c) == parts
    decreases |parts|, |parts[0]|
  {
    var p0 := parts[0];
    if |parts| == 1 {
      SplitNoSeparator(p0, c);
    } else if |p0| == 0 {
      var rest := parts[1..];
      SplitJoin(rest, c);
      assert Join(parts, c) == [c] + Join(rest, c);
      assert ([c] + Join(rest, c))[1..] == Join(rest, c);
    } else {
      var shorter := [p0[1..]] + parts[1..];
      assert forall i :: 1 <= i < |shorter| ==> shorter[i] == parts[i];
      SplitJoin(shorter, c);
      var j := Join(parts, c);
      assert shorter[1..] == parts[1..];
      assert j == [p0[0]] + Join(shorter, c);
      assert j[1..] == Join(shorter, c);
      assert p0 == [p0[0]] + p0[1..];
    }
  }

  /** A string without the separator splits into itself. */
  lemma {:induction false} SplitNoSeparator(s: string, c: char)
    requires c !in s
    ensures Split(s, c) == [s]
    decreases |s|
  {
    if |s| > 0 {
      assert c !in s[1..];
      SplitNoSeparator(s[1..], c);
      assert s == [s[0]] + s[1..];
    }
  }

  /** The first piece ends at the first separator. */
  lemma SplitAtFirst(a: string, c: char, b: string)
    requires c !in a
    ensures Split(a + [c] + b, c) == [a] + Split(b, c)
  {
    var parts := [a] + Split(b, c);
    assert parts[1..] == Split(b, c);
    assert Join(parts, c) == a + [c] + b by {
      var rest := Split(b, c);
      if |rest| == 1 {
        assert Join(parts, c) == a + [c] + rest[0];
      }
    }
    assert forall i :: 1 <= i < |parts| ==> parts[i] == Split(b, c)[i - 1];
    SplitJoin(parts, c);
  }

  // ---------------------------------------------------------------------------
  // Counting and erasing characters
  // ---------------------------------------------------------------------------

  function Count(s: string, c: char): nat
  {
    if |s| == 0 then 0 else (if s[0] == c then 1 else 0) + Count(s[1..], c)
  }

  /** `s` with every `c` removed. */
  function Erase(s: string, c: char): (r: string)
    ensures c !in r
    ensures |r| + Count(s, c) == |s|
  {
    if |s| == 0 then "" else (if s[0] == c then "" else [s[0]]) + Erase(s[1..], c)
  }

  lemma EraseConcat(a: string, b: string, c: char)
    ensures Erase(a + b, c) == Erase(a, c) + Erase(b, c)
  {
    if |a| > 0 {
      assert (a + b)[1..] == a[1..] + b;
      EraseConcat(a[1..], b, c);
    } else {
      assert a + b == b;
    }
  }

  lemma CountConcat(a: string, b: string, c: char)
    ensures Count(a + b, c) == Count(a, c) + Count(b, c)
  {
    if |a| > 0 {
      assert (a + b)[1..] == a[1..] + b;
      CountConcat(a[1..], b, c);
    } else {
      assert a + b == b;
    }
  }

  // ---------------------------------------------------------------------------
  // Decimal numerals
  // ---------------------------------------------------------------------------

  predicate IsDigit(c: char) {
    '0' <= c <= '9'
  }

  function DigitChar(d: int): (c: char)
    requires 0 <= d < 10
    ensures IsDigit(c)
  {
    ('0' as int + d) as char
  }

  function DigitValue(c: char): int
    requires IsDigit(c)
  {
    c as int - '0' as int
  }

  /** The value of a string of decimal digits, most significant first. */
  function DecimalValue(ds: string): nat
    requires forall i :: 0 <= i < |ds| ==> IsDigit(ds[i])
  {
    if |ds| == 0 then 0 else DecimalValue(ds[..|ds| - 1]) * 10 + DigitValue(ds[|ds| - 1])
  }

  /** `n.toString()` for a natural number. */
  function NatToString(n: nat): (s: string)
    ensures |s| >= 1
    ensures forall i :: 0 <= i < |s| ==> IsDigit(s[i])
    ensures DecimalValue(s) == n
  {
    if n < 10 then [DigitChar(n)]
    else
      var s := NatToString(n / 10) + [DigitChar(n % 10)];
      assert s[..|s| - 1] == NatToString(n / 10);
      s
  }

  /** `n.toString()` for any integer: a minus sign, then the digits of `|n|`. */
  function IntToString(n: int): (s: string)
    ensures n >= 0 ==> s == NatToString(n)
    ensures n < 0 ==> s == "-" + NatToString(-n)
  {
    if n < 0 then "-" + NatToString(-n) else NatToString(n)
  }

  /** The longest prefix of `s` made of digits. */
  function DigitPrefix(s: string): (d: string)
    ensures |d| <= |s| && d == s[..|d|]
    ensures forall i :: 0 <= i < |d| ==> IsDigit(d[i])
    ensures |d| < |s| ==> !IsDigit(s[|d|])
  {
    if |s| == 0 || !IsDigit(s[0]) then "" else [s[0]] + DigitPrefix(s[1..])
  }

  /** `parseInt(s)` in base ten: an optional sign, then the longest run of
      digits; `None` stands for `NaN`, the result when no digit follows. */
  function ParseInt(s: string): Option<int>
  {
    if |s| > 0 && (s[0] == '-' || s[0] == '+') then
      var d := DigitPrefix(s[1..]);
      if |d| == 0 then None
      else if s[0] == '-' then Some(-(DecimalValue(d) as int))
      else Some(DecimalValue(d))
    else
      var d := DigitPrefix(s);
      if |d| == 0 then None else Some(DecimalValue(d))
  }

  lemma DigitPrefixOfDigits(s: string)
    requires forall i :: 0 <= i < |s| ==> IsDigit(s[i])
    ensures DigitPrefix(s) == s
  {
  }

  /** Parsing the decimal form of an integer gives the integer back. */
  lemma ParseIntToString(n: int)
    ensures ParseInt(IntToString(n)) == Some(n)
  {
    if n < 0 {
      var s := IntToString(n);
      assert s[1..] == NatToString(-n);
      DigitPrefixOfDigits(NatToString(-n));
    } else {
      DigitPrefixOfDigits(NatToString(n));
    }
  }
}
