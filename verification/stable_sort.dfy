/** A stable sort by descending integer key: what `Array.prototype.sort` does
    with a comparator `(a, b) => key(b) - key(a)` (ECMA-262 requires the sort to
    be stable since its 2019 edition). */
module StableSort {

  /** Keys never increase from left to right. */
  predicate SortedDesc<T>(s: seq<T>, key: T -> int) {
    forall i, j :: 0 <= i < j < |s| ==> key(s[i]) >= key(s[j])
  }

  /** The elements of `s` whose key is `k`, in their order in `s`. */
  function WithKey<T>(s: seq<T>, key: T -> int, k: int): (r: seq<T>)
    ensures |r| <= |s|
    ensures forall i :: 0 <= i < |r| ==> key(r[i]) == k
  {
    if |s| == 0 then []
    else (if key(s[0]) == k then [s[0]] else []) + WithKey(s[1..], key, k)
  }

  /** Places `x` before the first element of `t` whose key is not above its own. */
  function Insert<T>(x: T, t: seq<T>, key: T -> int): (r: seq<T>)
    requires SortedDesc(t, key)
    ensures |r| == |t| + 1
    ensures SortedDesc(r, key)
    ensures multiset(r) == multiset(t) + multiset{x}
    ensures r[0] == x || (|t| > 0 && r[0] == t[0])
  {
    if |t| == 0 then [x]
    else if key(t[0]) <= key(x) then [x] + t
    else
      var rest := Insert(x, t[1..], key);
      assert key(rest[0]) <= key(t[0]);
      assert forall j :: 0 <= j < |rest| ==> key(rest[j]) <= key(rest[0]);
      assert t == [t[0]] + t[1..];
      [t[0]] + rest
  }

  /** Inserting `x` adds it at the end of its key's subsequence and leaves every
      other key's subsequence alone. */
  lemma {:induction false} InsertWithKey<T>(x: T, t: seq<T>, key: T -> int, k: int)
    requires SortedDesc(t, key)
    ensures WithKey(Insert(x, t, key), key, k) ==
      (if key(x) == k then [x] + WithKey(t, key, k) else WithKey(t, key, k))
  {
    if |t| == 0 {
    } else if key(t[0]) <= key(x) {
      assert ([x] + t)[1..] == t;
    } else {
      var rest := Insert(x, t[1..], key);
      InsertWithKey(x, t[1..], key, k);
      assert ([t[0]] + rest)[1..] == rest;
    }
  }

  /** The stable descending sort of `s`. */
  function SortDesc<T>(s: seq<T>, key: T -> int): (r: seq<T>)
    ensures |r| == |s|
    ensures SortedDesc(r, key)
    ensures multiset(r) == multiset(s)
    ensures forall k :: WithKey(r, key, k) == WithKey(s, key, k)
  {
    if |s| == 0 then []
    else
      var t := SortDesc(s[1..], key);
      assert s == [s[0]] + s[1..];
      assert forall k :: WithKey(Insert(s[0], t, key), key, k) == WithKey(s, key, k) by {
        forall k ensures WithKey(Insert(s[0], t, key), key, k) == WithKey(s, key, k) {
          InsertWithKey(s[0], t, key, k);
        }
      }
      Insert(s[0], t, key)
  }

  /** The first element of a sequence has the largest key, so in a sorted
      sequence it heads the elements of that key. */
  lemma {:induction false} WithKeyHead<T>(s: seq<T>, key: T -> int)
    requires |s| > 0
    ensures WithKey(s, key, key(s[0])) == [s[0]] + WithKey(s[1..], key, key(s[0]))
  {
  }

  lemma {:induction false} WithKeyEmpty<T>(s: seq<T>, key: T -> int)
    requires |s| > 0
    ensures |WithKey(s, key, key(s[0]))| > 0
  {
  }

  /** If some element of `s` has key `k`, then `WithKey(s, key, k)` is not empty,
      and conversely. */
  lemma {:induction false} WithKeyNonEmpty<T>(s: seq<T>, key: T -> int, i: int)
    requires 0 <= i < |s|
    ensures |WithKey(s, key, key(s[i]))| > 0
    decreases i
  {
    if i > 0 {
      WithKeyNonEmpty(s[1..], key, i - 1);
      assert s[1..][i - 1] == s[i];
    }
  }

  lemma {:induction false} WithKeyMember<T>(s: seq<T>, key: T -> int, k: int, j: int)
    requires 0 <= j < |WithKey(s, key, k)|
    ensures exists i :: 0 <= i < |s| && s[i] == WithKey(s, key, k)[j]
    decreases |s|
  {
    if key(s[0]) == k && j == 0 {
      assert s[0] == WithKey(s, key, k)[0];
    } else {
      var j' := if key(s[0]) == k then j - 1 else j;
      WithKeyMember(s[1..], key, k, j');
      var i :| 0 <= i < |s[1..]| && s[1..][i] == WithKey(s[1..], key, k)[j'];
      assert s[i + 1] == WithKey(s, key, k)[j];
    }
  }

  /** In a sorted sequence, dropping the head removes it from its key's
      subsequence and touches no other key. */
  lemma {:induction false} WithKeyTail<T>(s: seq<T>, key: T -> int, k: int)
    requires |s| > 0
    ensures WithKey(s[1..], key, k) ==
      (if key(s[0]) == k then WithKey(s, key, k)[1..] else WithKey(s, key, k))
  {
  }

  /** The head of a sorted sequence has a key at least that of any element
      of another sequence that the first shares the element's key group with. */
  lemma HeadKeyBound<T>(a: seq<T>, b: seq<T>, key: T -> int)
    requires SortedDesc(a, key) && |b| > 0
    requires WithKey(a, key, key(b[0])) == WithKey(b, key, key(b[0]))
    ensures |a| > 0 && key(b[0]) <= key(a[0])
  {
    WithKeyEmpty(b, key);
    var kb := key(b[0]);
    WithKeyMember(a, key, kb, 0);
    var i :| 0 <= i < |a| && a[i] == WithKey(a, key, kb)[0];
    assert key(a[i]) == kb;
  }

  /** Two sorted sequences with the same subsequence for every key start
      with the same element. */
  lemma SameHead<T>(a: seq<T>, b: seq<T>, key: T -> int)
    requires SortedDesc(a, key) && SortedDesc(b, key)
    requires forall k :: WithKey(a, key, k) == WithKey(b, key, k)
    requires |a| > 0
    ensures |b| > 0 && a[0] == b[0]
  {
    var ka := key(a[0]);
    assert WithKey(b, key, ka) == WithKey(a, key, ka);
    HeadKeyBound(b, a, key);
    var kb := key(b[0]);
    assert WithKey(a, key, kb) == WithKey(b, key, kb);
    HeadKeyBound(a, b, key);
    assert ka == kb;
    WithKeyHead(a, key);
    WithKeyHead(b, key);
    var wa, wb := WithKey(a, key, ka), WithKey(b, key, ka);
    assert wa[0] == a[0];
    assert wb[0] == b[0];
    assert wa == wb;
  }

  lemma TailsAgree<T>(a: seq<T>, b: seq<T>, key: T -> int)
    requires |a| > 0 && |b| > 0 && a[0] == b[0]
    requires forall k :: WithKey(a, key, k) == WithKey(b, key, k)
    ensures forall k :: WithKey(a[1..], key, k) == WithKey(b[1..], key, k)
  {
    forall k
      ensures WithKey(a[1..], key, k) == WithKey(b[1..], key, k)
    {
      WithKeyTail(a, key, k);
      WithKeyTail(b, key, k);
    }
  }

  /** A stable descending order is unique: two sorted sequences with the same
      subsequence for every key are equal. Hence `SortDesc` is THE stable sort. */
  lemma {:induction false} SortedUnique<T>(a: seq<T>, b: seq<T>, key: T -> int)
    requires SortedDesc(a, key) && SortedDesc(b, key)
    requires forall k :: WithKey(a, key, k) == WithKey(b, key, k)
    ensures a == b
    decreases |a|
  {
    if |a| == 0 {
      if |b| > 0 {
        SameHead(b, a, key);
      }
    } else {
      SameHead(a, b, key);
      TailsAgree(a, b, key);
      SortedUnique(a[1..], b[1..], key);
      assert a == [a[0]] + a[1..] && b == [b[0]] + b[1..];
    }
  }

  /** Elements with equal keys keep their input order. */
  lemma StableOnTies<T>(s: seq<T>, key: T -> int, k: int)
    ensures WithKey(SortDesc(s, key), key, k) == WithKey(s, key, k)
  {
  }
}
