/** Sequence operations that pandas performs on a whole column or frame:
    first-occurrence deduplication (`drop_duplicates`, `duplicated`), filtering,
    and counting (`(...).sum()` over a boolean column). */
module Collections {
  import opened Wrappers

  function Id<T>(x: T): T {
    x
  }

  /** Some element of `s` has key `k`. */
  predicate Seen<T, K(==)>(s: seq<T>, key: T -> K, k: K) {
    exists j :: 0 <= j < |s| && key(s[j]) == k
  }

  /** The index of the first element of `s` whose key is `k`. */
  function FirstIndex<T, K(==)>(s: seq<T>, key: T -> K, k: K): (i: nat)
    requires Seen(s, key, k)
    ensures i < |s| && key(s[i]) == k
    ensures forall j :: 0 <= j < i ==> key(s[j]) != k
    decreases |s|
  {
    var init := s[..|s| - 1];
    if Seen(init, key, k) then FirstIndex(init, key, k) else |s| - 1
  }

  predicate KeysDistinct<T, K(==)>(s: seq<T>, key: T -> K) {
    forall i, j :: 0 <= i < j < |s| ==> key(s[i]) != key(s[j])
  }

  /** `drop_duplicates(subset=key)` with keep='first': the first element for every
      key, in the order in which the keys first occur. */
  function DistinctBy<T, K(==)>(s: seq<T>, key: T -> K): (r: seq<T>)
    ensures |r| <= |s|
    decreases |s|
  {
    if |s| == 0 then []
    else
      var rest := DistinctBy(s[..|s| - 1], key);
      if Seen(s[..|s| - 1], key, key(s[|s| - 1])) then rest else rest + [s[|s| - 1]]
  }

  /** Deduplication by key leaves one element per key of the input, and nothing else:
      its keys are pairwise distinct and are exactly the keys of the input. */
  lemma {:induction false} DistinctByKeys<T, K>(s: seq<T>, key: T -> K)
    ensures KeysDistinct(DistinctBy(s, key), key)
    ensures forall j :: 0 <= j < |s| ==> Seen(DistinctBy(s, key), key, key(s[j]))
    ensures forall i :: 0 <= i < |DistinctBy(s, key)| ==> Seen(s, key, key(DistinctBy(s, key)[i]))
    decreases |s|
  {
    if |s| > 0 {
      var init := s[..|s| - 1];
      var last := s[|s| - 1];
      var rest := DistinctBy(init, key);
      DistinctByKeys(init, key);
      assert forall j :: 0 <= j < |init| ==> init[j] == s[j];
      if !Seen(init, key, key(last)) {
        var r := rest + [last];
        forall j | 0 <= j < |s| ensures Seen(r, key, key(s[j])) {
          if j < |s| - 1 {
            var w :| 0 <= w < |rest| && key(rest[w]) == key(init[j]);
            assert r[w] == rest[w];
          } else {
            assert r[|r| - 1] == last;
          }
        }
        forall i | 0 <= i < |r| - 1 ensures key(r[i]) != key(last) {
          var w :| 0 <= w < |init| && key(init[w]) == key(r[i]);
        }
      } else {
        var w := FirstIndex(init, key, key(last));
        assert Seen(rest, key, key(init[w]));
      }
    }
  }

  /** A sequence without repeats has as many distinct elements as it has positions. */
  lemma {:induction false} DistinctCardinality<T>(r: seq<T>)
    requires KeysDistinct(r, Id)
    ensures |(set i | 0 <= i < |r| :: r[i])| == |r|
    decreases |r|
  {
    if |r| > 0 {
      var init := r[..|r| - 1];
      assert forall i :: 0 <= i < |init| ==> init[i] == r[i];
      DistinctCardinality(init);
      var before := set i | 0 <= i < |init| :: init[i];
      assert r[|r| - 1] !in before;
      assert (set i | 0 <= i < |r| :: r[i]) == before + {r[|r| - 1]};
    }
  }

  /** Each element deduplication keeps is the first occurrence of its key, and the
      kept elements appear in the order of those first occurrences. */
  lemma {:induction false} DistinctByKeepsFirst<T, K>(s: seq<T>, key: T -> K)
    ensures forall i :: 0 <= i < |DistinctBy(s, key)| ==>
      Seen(s, key, key(DistinctBy(s, key)[i]))
      && DistinctBy(s, key)[i] == s[FirstIndex(s, key, key(DistinctBy(s, key)[i]))]
    ensures forall i, j :: 0 <= i < j < |DistinctBy(s, key)| ==>
      Seen(s, key, key(DistinctBy(s, key)[i])) && Seen(s, key, key(DistinctBy(s, key)[j]))
      && FirstIndex(s, key, key(DistinctBy(s, key)[i])) < FirstIndex(s, key, key(DistinctBy(s, key)[j]))
    decreases |s|
  {
    DistinctByKeys(s, key);
    if |s| > 0 {
      var init := s[..|s| - 1];
      var last := s[|s| - 1];
      var rest := DistinctBy(init, key);
      DistinctByKeepsFirst(init, key);
      DistinctByKeys(init, key);
      assert forall j :: 0 <= j < |init| ==> init[j] == s[j];
      assert forall i :: 0 <= i < |rest| ==>
        FirstIndex(s, key, key(rest[i])) == FirstIndex(init, key, key(rest[i]));
      if !Seen(init, key, key(last)) {
        assert FirstIndex(s, key, key(last)) == |s| - 1;
      }
    }
  }

  /** Whole-element deduplication neither invents nor loses a distinct element. */
  lemma DistinctKeepsElements<T>(s: seq<T>)
    ensures forall j :: 0 <= j < |s| ==> s[j] in DistinctBy(s, Id)
    ensures forall i :: 0 <= i < |DistinctBy(s, Id)| ==> DistinctBy(s, Id)[i] in s
  {
    DistinctByKeys(s, Id);
    var r := DistinctBy(s, Id);
    forall j | 0 <= j < |s| ensures s[j] in r {
      var w :| 0 <= w < |r| && Id(r[w]) == Id(s[j]);
    }
    forall i | 0 <= i < |r| ensures r[i] in s {
      var w :| 0 <= w < |s| && Id(s[w]) == Id(r[i]);
    }
  }

  /** Number of elements equal to some earlier element (`duplicated().sum()`). */
  function DuplicateCount<T(==)>(s: seq<T>): nat
    decreases |s|
  {
    if |s| == 0 then 0
    else DuplicateCount(s[..|s| - 1]) + (if s[|s| - 1] in s[..|s| - 1] then 1 else 0)
  }

  /** Whole-row deduplication removes exactly the rows `duplicated()` flags. */
  lemma {:induction false} DuplicatesAreRemoved<T>(s: seq<T>)
    ensures DuplicateCount(s) + |DistinctBy(s, Id)| == |s|
    decreases |s|
  {
    if |s| > 0 {
      var init := s[..|s| - 1];
      DuplicatesAreRemoved(init);
      assert s[|s| - 1] in init <==> Seen(init, Id, Id(s[|s| - 1]));
    }
  }

  /** `r` is obtained from `s` by deleting elements. */
  ghost predicate IsSubsequence<T>(r: seq<T>, s: seq<T>)
    decreases |s|
  {
    |r| == 0
    || (|s| > 0
        && ((r[|r| - 1] == s[|s| - 1] && IsSubsequence(r[..|r| - 1], s[..|s| - 1]))
            || IsSubsequence(r, s[..|s| - 1])))
  }

  /** A list comprehension `[x for x in s if keep(x)]`. */
  function Keep<T>(s: seq<T>, keep: T -> bool): (r: seq<T>)
    ensures forall i :: 0 <= i < |r| ==> r[i] in s && keep(r[i])
    ensures forall i :: 0 <= i < |s| && keep(s[i]) ==> s[i] in r
    ensures IsSubsequence(r, s)
    decreases |s|
  {
    if |s| == 0 then []
    else
      var init := s[..|s| - 1];
      var rest := Keep(init, keep);
      if keep(s[|s| - 1]) then
        assert (rest + [s[|s| - 1]])[..|rest|] == rest;
        assert s == init + [s[|s| - 1]];
        rest + [s[|s| - 1]]
      else
        assert s == init + [s[|s| - 1]];
        rest
  }

  /** Number of elements satisfying `p` (a boolean column's `.sum()`). */
  function CountWhere<T>(s: seq<T>, p: T -> bool): (n: nat)
    ensures n <= |s|
    ensures n > 0 <==> exists i :: 0 <= i < |s| && p(s[i])
    decreases |s|
  {
    if |s| == 0 then 0
    else
      var init := s[..|s| - 1];
      assert forall i :: 0 <= i < |init| ==> init[i] == s[i];
      CountWhere(init, p) + (if p(s[|s| - 1]) then 1 else 0)
  }

  /** A concrete instance of first-occurrence deduplication: A,B,C,A keeps A,B,C. */
  lemma DistinctExample<T>(a: T, b: T, c: T)
    requires a != b && b != c && a != c
    ensures DistinctBy([a, b, c, a], Id) == [a, b, c]
  {
    assert [a][..0] == [];
    assert !Seen([], Id, Id(a));
    assert DistinctBy([a], Id) == [a];
    assert [a, b][..1] == [a];
    assert !Seen([a], Id, Id(b));
    assert DistinctBy([a, b], Id) == [a, b];
    assert [a, b, c][..2] == [a, b];
    assert !Seen([a, b], Id, Id(c));
    assert DistinctBy([a, b, c], Id) == [a, b, c];
    assert [a, b, c, a][..3] == [a, b, c];
    assert Seen([a, b, c], Id, Id(a)) by { assert [a, b, c][0] == a; }
  }

  /** The values of the entries of `right` whose key is `k`, in order. */
  function Matches<K(==), V>(right: seq<(K, V)>, k: K): (r: seq<V>)
    ensures |r| <= |right|
    decreases |right|
  {
    if |right| == 0 then []
    else
      var rest := Matches(right[..|right| - 1], k);
      if right[|right| - 1].0 == k then rest + [right[|right| - 1].1] else rest
  }

  /** One left element paired with each of its matches, or with nothing. */
  function Joined<L, V>(l: L, ms: seq<V>): (r: seq<(L, Option<V>)>)
    ensures |r| == if |ms| == 0 then 1 else |ms|
  {
    if |ms| == 0 then [(l, None)]
    else seq(|ms|, i requires 0 <= i < |ms| => (l, Some(ms[i])))
  }

  /** `left.merge(right, on=key, how='left')`: every left element in order, once per
      matching right entry (in right order), or once with no match. */
  function LeftMerge<L, K(==), V>(left: seq<L>, key: L -> K, right: seq<(K, V)>): (r: seq<(L, Option<V>)>)
    ensures |r| >= |left|
    decreases |left|
  {
    if |left| == 0 then []
    else
      var last := left[|left| - 1];
      LeftMerge(left[..|left| - 1], key, right) + Joined(last, Matches(right, key(last)))
  }

  predicate UniqueKeys<K(==), V>(right: seq<(K, V)>) {
    forall i, j :: 0 <= i < j < |right| ==> right[i].0 != right[j].0
  }

  /** The value stored under `k`, when there is one. */
  function Lookup<K(==), V>(right: seq<(K, V)>, k: K): Option<V> {
    var ms := Matches(right, k);
    if |ms| == 0 then None else Some(ms[0])
  }

  /** With unique keys a key matches at most one entry, and none exactly when no
      entry carries it. */
  lemma {:induction false} MatchesAtMostOne<K, V>(right: seq<(K, V)>, k: K)
    requires UniqueKeys(right)
    ensures |Matches(right, k)| <= 1
    ensures |Matches(right, k)| == 0 <==> forall j :: 0 <= j < |right| ==> right[j].0 != k
    decreases |right|
  {
    if |right| > 0 {
      var init := right[..|right| - 1];
      assert UniqueKeys(init);
      MatchesAtMostOne(init, k);
      assert forall j :: 0 <= j < |init| ==> init[j] == right[j];
    }
  }

  /** With unique keys, `Lookup` finds exactly the value stored with the key. */
  lemma {:induction false} LookupSpec<K, V>(right: seq<(K, V)>, k: K, v: V)
    requires UniqueKeys(right)
    ensures Lookup(right, k) == Some(v) <==> (k, v) in right
    decreases |right|
  {
    if |right| > 0 {
      var init := right[..|right| - 1];
      var last := right[|right| - 1];
      assert UniqueKeys(init);
      LookupSpec(init, k, v);
      MatchesAtMostOne(init, k);
      assert forall e :: e in right <==> e in init || e == last;
      if last.0 == k {
        assert forall j :: 0 <= j < |init| ==> init[j] == right[j];
        assert (k, v) in init ==> false;
      }
    }
  }

  /** With unique right keys a left merge keeps exactly one row per left element, in
      order, each carrying the value its key looks up. */
  lemma {:induction false} LeftMergeUnique<L, K, V>(left: seq<L>, key: L -> K, right: seq<(K, V)>)
    requires UniqueKeys(right)
    ensures |LeftMerge(left, key, right)| == |left|
    ensures forall i :: 0 <= i < |left| ==>
      LeftMerge(left, key, right)[i] == (left[i], Lookup(right, key(left[i])))
    decreases |left|
  {
    if |left| > 0 {
      var init := left[..|left| - 1];
      var last := left[|left| - 1];
      LeftMergeUnique(init, key, right);
      MatchesAtMostOne(right, key(last));
      assert forall i :: 0 <= i < |init| ==> init[i] == left[i];
    }
  }
}
