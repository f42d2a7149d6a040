/**
 * Ranking of candidates: the stable sort that `Array.prototype.sort` performs
 * with the comparator `(a, b) => key(b) - key(a)` (highest key first; equal
 * keys keep their relative order, as section 22.1.3.27 of ECMAScript 2019
 * requires), the `slice(0, n)` that cuts a batch, and the `reduce` that sums
 * the keys.
 */
module Ordering {

  /** Keys never increase from left to right. */
  predicate NonIncreasing<T>(s: seq<T>, key: T -> nat) {
    forall i, j :: 0 <= i < j < |s| ==> key(s[i]) >= key(s[j])
  }

  /** Every key in `s` is at most `b`. */
  predicate KeysAtMost<T>(s: seq<T>, key: T -> nat, b: nat) {
    forall k :: 0 <= k < |s| ==> key(s[k]) <= b
  }

  /** Every key in `s` is at least `b`. */
  predicate KeysAtLeast<T>(s: seq<T>, key: T -> nat, b: nat) {
    forall k :: 0 <= k < |s| ==> key(s[k]) >= b
  }

  /** Every key in `s` is below `b`. */
  predicate KeysBelow<T>(s: seq<T>, key: T -> nat, b: nat) {
    forall k :: 0 <= k < |s| ==> key(s[k]) < b
  }

  /** Inserts `x` after every element whose key is at least `key(x)`. */
  function InsertDesc<T>(s: seq<T>, x: T, key: T -> nat): (r: seq<T>)
    ensures |r| == |s| + 1
    ensures multiset(r) == multiset(s) + multiset{x}
  {
    if s == [] then [x]
    else if key(s[0]) >= key(x) then
      assert s == [s[0]] + s[1..];
      [s[0]] + InsertDesc(s[1..], x, key)
    else
      [x] + s
  }

  lemma {:induction false} InsertDescAtMost<T>(s: seq<T>, x: T, key: T -> nat, b: nat)
    requires KeysAtMost(s, key, b) && key(x) <= b
    ensures KeysAtMost(InsertDesc(s, x, key), key, b)
  {
    if s != [] && key(s[0]) >= key(x) {
      InsertDescAtMost(s[1..], x, key, b);
    }
  }

  lemma ConsNonIncreasing<T>(a: T, t: seq<T>, key: T -> nat)
    requires NonIncreasing(t, key) && KeysAtMost(t, key, key(a))
    ensures NonIncreasing([a] + t, key)
  {
  }

  /** Inserting into a ranked sequence keeps it ranked. */
  lemma {:induction false} InsertDescRanked<T>(s: seq<T>, x: T, key: T -> nat)
    requires NonIncreasing(s, key)
    ensures NonIncreasing(InsertDesc(s, x, key), key)
  {
    if s == [] {
    } else if key(s[0]) >= key(x) {
      InsertDescRanked(s[1..], x, key);
      InsertDescAtMost(s[1..], x, key, key(s[0]));
      ConsNonIncreasing(s[0], InsertDesc(s[1..], x, key), key);
    } else {
      ConsNonIncreasing(x, s, key);
    }
  }

  /** The stable descending sort: the elements of `s` ordered by key, highest first. */
  function SortDesc<T>(s: seq<T>, key: T -> nat): (r: seq<T>)
    ensures NonIncreasing(r, key)
    ensures multiset(r) == multiset(s)
    ensures |r| == |s|
  {
    if s == [] then []
    else
      assert s == s[..|s| - 1] + [s[|s| - 1]];
      var init := SortDesc(s[..|s| - 1], key);
      InsertDescRanked(init, s[|s| - 1], key);
      InsertDesc(init, s[|s| - 1], key)
  }

  /** The elements of `s` whose key is `v`, in their order in `s`. */
  function WithKey<T>(s: seq<T>, key: T -> nat, v: nat): seq<T> {
    if s == [] then [] else (if key(s[0]) == v then [s[0]] else []) + WithKey(s[1..], key, v)
  }

  lemma {:induction false} WithKeyAppend<T>(a: seq<T>, b: seq<T>, key: T -> nat, v: nat)
    ensures WithKey(a + b, key, v) == WithKey(a, key, v) + WithKey(b, key, v)
  {
    if a == [] {
      assert a + b == b;
    } else {
      var x, rest := a[0], a[1..];
      assert a == [x] + rest;
      WithKeyAppend(rest, b, key, v);
      ConcatAssoc([x], rest, b);
      WithKeyCons(x, rest + b, key, v);
      WithKeyCons(x, rest, key, v);
      ConcatAssoc(Tagged(x, key, v), WithKey(rest, key, v), WithKey(b, key, v));
    }
  }

  lemma {:induction false} WithKeyBelow<T>(s: seq<T>, key: T -> nat, v: nat)
    requires KeysBelow(s, key, v)
    ensures WithKey(s, key, v) == []
  {
    if s != [] {
      WithKeyBelow(s[1..], key, v);
    }
  }

  /** The elements of `[x]` whose key is `v`. */
  function Tagged<T>(x: T, key: T -> nat, v: nat): seq<T> {
    if key(x) == v then [x] else []
  }

  lemma WithKeyCons<T>(a: T, t: seq<T>, key: T -> nat, v: nat)
    ensures WithKey([a] + t, key, v) == Tagged(a, key, v) + WithKey(t, key, v)
  {
    assert ([a] + t)[0] == a;
    assert ([a] + t)[1..] == t;
  }

  /** Inserting into a ranked sequence puts `x` after every element with its key. */
  lemma {:induction false} InsertDescStable<T>(s: seq<T>, x: T, key: T -> nat, v: nat)
    requires NonIncreasing(s, key)
    ensures WithKey(InsertDesc(s, x, key), key, v) == WithKey(s, key, v) + Tagged(x, key, v)
  {
    if s != [] && key(s[0]) >= key(x) {
      assert NonIncreasing(s[1..], key);
      InsertDescStable(s[1..], x, key, v);
      InsertDescStableSkip(s, x, key, v);
    } else {
      InsertDescStableFront(s, x, key, v);
    }
  }

  /** The step of InsertDescStable where `x` goes in front. */
  lemma InsertDescStableFront<T>(s: seq<T>, x: T, key: T -> nat, v: nat)
    requires NonIncreasing(s, key) && (s == [] || key(s[0]) < key(x))
    ensures WithKey(InsertDesc(s, x, key), key, v) == WithKey(s, key, v) + Tagged(x, key, v)
  {
    assert InsertDesc(s, x, key) == [x] + s;
    WithKeyCons(x, s, key, v);
    assert KeysBelow(s, key, key(x));
    if key(x) == v {
      WithKeyBelow(s, key, v);
    } else {
      assert s == [] ==> WithKey(s, key, v) == [];
    }
  }

  /** The step of InsertDescStable where `x` goes past the first element. */
  lemma InsertDescStableSkip<T>(s: seq<T>, x: T, key: T -> nat, v: nat)
    requires s != [] && key(s[0]) >= key(x)
    requires WithKey(InsertDesc(s[1..], x, key), key, v) == WithKey(s[1..], key, v) + Tagged(x, key, v)
    ensures WithKey(InsertDesc(s, x, key), key, v) == WithKey(s, key, v) + Tagged(x, key, v)
  {
    var rest := InsertDesc(s[1..], x, key);
    assert InsertDesc(s, x, key) == [s[0]] + rest;
    WithKeyCons(s[0], rest, key, v);
    var a, b, c := Tagged(s[0], key, v), WithKey(s[1..], key, v), Tagged(x, key, v);
    assert WithKey(s, key, v) == a + b;
    ConcatAssoc(a, b, c);
  }

  lemma SplitLast<T>(s: seq<T>)
    requires s != []
    ensures s[..|s| - 1] + [s[|s| - 1]] == s
  {
  }

  lemma ConcatAssoc<T>(a: seq<T>, b: seq<T>, c: seq<T>)
    ensures a + (b + c) == (a + b) + c
  {
  }

  /**
   * The sort is stable: for every key value, the elements carrying it appear
   * in the output in the same order as in the input.
   */
  lemma {:induction false} SortDescStable<T>(s: seq<T>, key: T -> nat, v: nat)
    ensures WithKey(SortDesc(s, key), key, v) == WithKey(s, key, v)
  {
    if s != [] {
      var init, last := s[..|s| - 1], s[|s| - 1];
      assert s == init + [last];
      SortDescStable(init, key, v);
      InsertDescStable(SortDesc(init, key), last, key, v);
      WithKeyAppend(init, [last], key, v);
      WithKeyCons(last, [], key, v);
      assert [last] + [] == [last];
    }
  }

  /** A sequence that is already ranked is left as it is. */
  lemma {:induction false} SortDescOfRanked<T>(s: seq<T>, key: T -> nat)
    requires NonIncreasing(s, key)
    ensures SortDesc(s, key) == s
  {
    if s != [] {
      var init, last := s[..|s| - 1], s[|s| - 1];
      assert NonIncreasing(init, key);
      SortDescOfRanked(init, key);
      assert KeysAtLeast(init, key, key(last));
      InsertAtEnd(init, last, key);
      assert SortDesc(s, key) == init + [last];
      SplitLast(s);
    }
  }

  lemma {:induction false} InsertAtEnd<T>(s: seq<T>, x: T, key: T -> nat)
    requires KeysAtLeast(s, key, key(x))
    ensures InsertDesc(s, x, key) == s + [x]
  {
    if s != [] {
      assert KeysAtLeast(s[1..], key, key(x));
      InsertAtEnd(s[1..], x, key);
      assert s == [s[0]] + s[1..];
      assert s + [x] == [s[0]] + (s[1..] + [x]);
    }
  }

  /** `s.slice(0, end)`: a negative `end` counts back from the end of `s`. */
  function SliceTo<T>(s: seq<T>, end: int): (r: seq<T>)
    ensures |r| <= |s| && r == s[..|r|]
  {
    if end < 0 then s[..if |s| + end < 0 then 0 else |s| + end]
    else if end < |s| then s[..end]
    else s
  }

  /** A slice with a non-negative end keeps the first `min(end, |s|)` elements. */
  lemma SliceToLength<T>(s: seq<T>, end: int)
    requires end >= 0
    ensures |SliceTo(s, end)| == if end < |s| then end else |s|
    ensures SliceTo(s, end) == s[..|SliceTo(s, end)|]
  {
  }

  /** `s.reduce((sum, c) => sum + key(c), 0)`. */
  function SumBy<T>(s: seq<T>, key: T -> nat): nat {
    if s == [] then 0 else SumBy(s[..|s| - 1], key) + key(s[|s| - 1])
  }

  lemma {:induction false} SumByAppend<T>(a: seq<T>, b: seq<T>, key: T -> nat)
    ensures SumBy(a + b, key) == SumBy(a, key) + SumBy(b, key)
    decreases |b|
  {
    if b == [] {
      assert a + b == a;
    } else {
      assert (a + b)[..|a + b| - 1] == a + b[..|b| - 1];
      assert (a + b)[|a + b| - 1] == b[|b| - 1];
      SumByAppend(a, b[..|b| - 1], key);
    }
  }

  lemma {:induction false} SumByInsert<T>(s: seq<T>, x: T, key: T -> nat)
    ensures SumBy(InsertDesc(s, x, key), key) == SumBy(s, key) + key(x)
  {
    if s == [] {
      assert SumBy([x], key) == SumBy([], key) + key(x);
    } else if key(s[0]) >= key(x) {
      SumByInsert(s[1..], x, key);
      SumByAppend([s[0]], InsertDesc(s[1..], x, key), key);
      SumByAppend([s[0]], s[1..], key);
      assert s == [s[0]] + s[1..];
      assert SumBy([s[0]], key) == SumBy([], key) + key(s[0]);
    } else {
      SumByAppend([x], s, key);
      assert SumBy([x], key) == SumBy([], key) + key(x);
    }
  }

  /** Ranking does not change the total. */
  lemma {:induction false} SumBySortDesc<T>(s: seq<T>, key: T -> nat)
    ensures SumBy(SortDesc(s, key), key) == SumBy(s, key)
  {
    if s != [] {
      var init, last := s[..|s| - 1], s[|s| - 1];
      SumBySortDesc(init, key);
      SumByInsert(SortDesc(init, key), last, key);
    }
  }

  /** Every key is at most the total. */
  lemma {:induction false} SumByBoundsEach<T>(s: seq<T>, key: T -> nat, k: nat)
    requires k < |s|
    ensures key(s[k]) <= SumBy(s, key)
  {
    if k < |s| - 1 {
      SumByBoundsEach(s[..|s| - 1], key, k);
    }
  }
}
