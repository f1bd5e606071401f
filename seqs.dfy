/**
 * The array operations the components chain together — `filter`, `reduce`
 * with `+`, a stable `sort` on a numeric key, `slice` and `join` — as
 * functions on sequences, with the facts about them that the aggregates
 * need. Every recursion peels the LAST element, so that a definition on
 * `s + [x]` unfolds the way a left-to-right `forEach` proceeds.
 */
module Seqs {

  /** `s.filter(p)`: the elements satisfying p, in their original order. */
  function Filter<T(!new)>(s: seq<T>, p: T -> bool): (r: seq<T>)
    ensures |r| <= |s|
    ensures forall x :: x in r <==> x in s && p(x)
  {
    if s == [] then []
    else
      var rest, x := Filter(s[..|s| - 1], p), s[|s| - 1];
      assert s == s[..|s| - 1] + [x];
      if p(x) then rest + [x] else rest
  }

  lemma FilterSnoc<T(!new)>(s: seq<T>, x: T, p: T -> bool)
    ensures Filter(s + [x], p) == if p(x) then Filter(s, p) + [x] else Filter(s, p)
  {
    assert (s + [x])[..|s|] == s;
  }

  /** Filtering only drops elements: the result is a sub-multiset. */
  lemma {:induction false} FilterSubMultiset<T(!new)>(s: seq<T>, p: T -> bool)
    ensures multiset(Filter(s, p)) <= multiset(s)
  {
    if s != [] {
      FilterSubMultiset(s[..|s| - 1], p);
      assert s == s[..|s| - 1] + [s[|s| - 1]];
    }
  }

  lemma {:induction false} FilterConcat<T(!new)>(a: seq<T>, b: seq<T>, p: T -> bool)
    ensures Filter(a + b, p) == Filter(a, p) + Filter(b, p)
  {
    if b == [] {
      assert a + b == a;
    } else {
      var b' := b[..|b| - 1];
      assert (a + b)[..|a + b| - 1] == a + b';
      assert (a + b)[|a + b| - 1] == b[|b| - 1];
      FilterConcat(a, b', p);
    }
  }

  /** `s.reduce((sum, x) => sum + f(x), 0)`. */
  function SumOf<T>(s: seq<T>, f: T -> real): real {
    if s == [] then 0.0 else SumOf(s[..|s| - 1], f) + f(s[|s| - 1])
  }

  lemma {:induction false} SumOfConcat<T>(a: seq<T>, b: seq<T>, f: T -> real)
    ensures SumOf(a + b, f) == SumOf(a, f) + SumOf(b, f)
  {
    if b == [] {
      assert a + b == a;
    } else {
      var b' := b[..|b| - 1];
      assert (a + b)[..|a + b| - 1] == a + b';
      assert (a + b)[|a + b| - 1] == b[|b| - 1];
      SumOfConcat(a, b', f);
    }
  }

  /** Splitting a sum by a predicate and its negation loses nothing. */
  lemma {:induction false} SumOfPartition<T(!new)>(s: seq<T>, p: T -> bool, q: T -> bool, f: T -> real)
    requires forall x :: q(x) == !p(x)
    ensures SumOf(Filter(s, p), f) + SumOf(Filter(s, q), f) == SumOf(s, f)
  {
    if s != [] {
      var s', x := s[..|s| - 1], s[|s| - 1];
      SumOfPartition(s', p, q, f);
      SumOfConcat(Filter(s', p), [x], f);
      SumOfConcat(Filter(s', q), [x], f);
    }
  }

  predicate Distinct<T(==)>(s: seq<T>) {
    forall i, j :: 0 <= i < j < |s| ==> s[i] != s[j]
  }

  /** Each element of a sequence without repetitions occurs once. */
  lemma OccursOnce<T>(s: seq<T>, p: nat)
    requires p < |s| && Distinct(s)
    ensures multiset(s)[s[p]] == 1
  {
    var x, a, c := s[p], s[..p], s[p + 1..];
    assert s == a + [x] + c;
    assert x !in a by {
      forall y | y in a ensures y != x {
        var q :| 0 <= q < p && a[q] == y;
        assert s[q] == y;
      }
    }
    assert x !in c by {
      forall y | y in c ensures y != x {
        var q :| 0 <= q < |c| && c[q] == y;
        assert s[p + 1 + q] == y;
      }
    }
    assert multiset(s) == multiset(a) + multiset{x} + multiset(c);
  }

  /** When the images under f are distinct, every element occurs once. */
  lemma DistinctImageOccursOnce<T, U>(s: seq<T>, f: T -> U, p: nat)
    requires Distinct(Map(s, f)) && p < |s|
    ensures multiset(s)[s[p]] == 1
  {
    DistinctImage(s, f);
    OccursOnce(s, p);
  }

  /** Distinct images come from distinct elements. */
  lemma DistinctImage<T, U>(s: seq<T>, f: T -> U)
    requires Distinct(Map(s, f))
    ensures Distinct(s)
  {
    var m := Map(s, f);
    forall i, j | 0 <= i < j < |s| ensures s[i] != s[j] {
      assert m[i] != m[j];
    }
  }

  /** Index of the first occurrence of x in s. */
  function FirstIndex<T(==)>(s: seq<T>, x: T): (k: nat)
    requires x in s
    ensures k < |s| && s[k] == x
    ensures forall i :: 0 <= i < k ==> s[i] != x
  {
    if s[0] == x then 0 else 1 + FirstIndex(s[1..], x)
  }

  lemma FirstIndexOfPrefix<T>(s: seq<T>, n: nat, x: T)
    requires n <= |s| && x in s[..n]
    ensures FirstIndex(s, x) == FirstIndex(s[..n], x)
  {
    var k, k' := FirstIndex(s, x), FirstIndex(s[..n], x);
    assert s[..n][k'] == s[k'];
    assert k <= k';
    assert s[..n][k] == s[k];
  }

  /** An element that first appears at the end of s is first found there. */
  lemma FirstIndexOfNew<T>(s: seq<T>)
    requires s != [] && s[|s| - 1] !in s[..|s| - 1]
    ensures FirstIndex(s, s[|s| - 1]) == |s| - 1
  {
  }

  /** Stable insertion of x into r: after every element whose key is at most
      key(x), before the trailing elements with a larger key. */
  function Insert<T>(r: seq<T>, x: T, key: T -> int): (q: seq<T>)
    ensures |q| == |r| + 1
  {
    if r == [] || key(r[|r| - 1]) <= key(x) then r + [x]
    else Insert(r[..|r| - 1], x, key) + [r[|r| - 1]]
  }

  lemma {:induction false} InsertPermutes<T>(r: seq<T>, x: T, key: T -> int)
    ensures multiset(Insert(r, x, key)) == multiset(r) + multiset{x}
  {
    if r != [] && key(r[|r| - 1]) > key(x) {
      InsertPermutes(r[..|r| - 1], x, key);
      assert r == r[..|r| - 1] + [r[|r| - 1]];
    }
  }

  /** `[...s].sort((a, b) => key(a) - key(b))` with ECMAScript's stable sort. */
  function SortByKey<T>(s: seq<T>, key: T -> int): (r: seq<T>)
    ensures |r| == |s|
  {
    if s == [] then []
    else Insert(SortByKey(s[..|s| - 1], key), s[|s| - 1], key)
  }

  /** Sorting two elements swaps them exactly when the second has the
      smaller key. */
  lemma SortTwo<T>(p: T, q: T, key: T -> int)
    ensures SortByKey([p, q], key) == if key(p) <= key(q) then [p, q] else [q, p]
  {
    assert [p, q][..1] == [p] && [p][..0] == [];
    assert SortByKey([p], key) == Insert([], p, key) == [p];
    assert SortByKey([p, q], key) == Insert([p], q, key);
    assert Insert([p], q, key) == if key(p) <= key(q) then [p, q] else Insert([], q, key) + [p];
  }

  /** The sort is a permutation of its input. */
  lemma {:induction false} SortByKeyPermutes<T>(s: seq<T>, key: T -> int)
    ensures multiset(SortByKey(s, key)) == multiset(s)
  {
    if s != [] {
      SortByKeyPermutes(s[..|s| - 1], key);
      InsertPermutes(SortByKey(s[..|s| - 1], key), s[|s| - 1], key);
      assert s == s[..|s| - 1] + [s[|s| - 1]];
    }
  }

  predicate SortedBy<T>(s: seq<T>, key: T -> int) {
    forall i, j :: 0 <= i < j < |s| ==> key(s[i]) <= key(s[j])
  }

  lemma {:induction false} InsertSorted<T>(r: seq<T>, x: T, key: T -> int)
    requires SortedBy(r, key)
    ensures SortedBy(Insert(r, x, key), key)
  {
    if r == [] {
      assert Insert(r, x, key) == [x];
    } else {
      var last := r[|r| - 1];
      var r' := r[..|r| - 1];
      if key(last) <= key(x) {
        assert forall i :: 0 <= i < |r| ==> key(r[i]) <= key(x) by {
          forall i | 0 <= i < |r| ensures key(r[i]) <= key(x) {
            if i < |r| - 1 {
              assert key(r[i]) <= key(last);
            }
          }
        }
        SortedSnoc(r, x, key);
      } else {
        assert SortedBy(r', key);
        InsertSorted(r', x, key);
        var q := Insert(r', x, key);
        assert forall i :: 0 <= i < |q| ==> key(q[i]) <= key(last) by {
          InsertPermutes(r', x, key);
          forall i | 0 <= i < |q| ensures key(q[i]) <= key(last) {
            assert q[i] in multiset(q);
            if q[i] != x {
              var j :| 0 <= j < |r'| && r'[j] == q[i];
              assert r[j] == q[i];
            }
          }
        }
        SortedSnoc(q, last, key);
      }
    }
  }

  /** Appending an element whose key is at least every key keeps a
      sequence sorted. */
  lemma SortedSnoc<T>(q: seq<T>, z: T, key: T -> int)
    requires SortedBy(q, key)
    requires forall i :: 0 <= i < |q| ==> key(q[i]) <= key(z)
    ensures SortedBy(q + [z], key)
  {
    forall i, j | 0 <= i < j < |q| + 1 ensures key((q + [z])[i]) <= key((q + [z])[j]) {
      if j == |q| {
        assert (q + [z])[j] == z;
      }
    }
  }

  /** The result of the sort is ordered by the key. */
  lemma {:induction false} SortByKeySorted<T>(s: seq<T>, key: T -> int)
    ensures SortedBy(SortByKey(s, key), key)
  {
    if s != [] {
      SortByKeySorted(s[..|s| - 1], key);
      InsertSorted(SortByKey(s[..|s| - 1], key), s[|s| - 1], key);
    }
  }

  /** Every element left out of a prefix of a sorted sequence has a key at
      least as large as every element of the prefix. */
  lemma SortedPrefixComesFirst<T>(s: seq<T>, key: T -> int, m: nat, x: T, i: nat)
    requires SortedBy(s, key) && m <= |s| && i < m
    requires x in multiset(s) - multiset(s[..m])
    ensures key(s[i]) <= key(x)
  {
    assert s == s[..m] + s[m..];
    assert multiset(s) == multiset(s[..m]) + multiset(s[m..]);
    assert x in multiset(s[m..]);
    var j :| 0 <= j < |s[m..]| && s[m..][j] == x;
    assert s[m + j] == x;
  }

  /** The elements of s whose key is k, in order. */
  function WithKey<T>(s: seq<T>, key: T -> int, k: int): seq<T> {
    if s == [] then []
    else WithKey(s[..|s| - 1], key, k) + (if key(s[|s| - 1]) == k then [s[|s| - 1]] else [])
  }

  lemma {:induction false} WithKeyConcat<T>(a: seq<T>, b: seq<T>, key: T -> int, k: int)
    ensures WithKey(a + b, key, k) == WithKey(a, key, k) + WithKey(b, key, k)
  {
    if b == [] {
      assert a + b == a;
    } else {
      var b' := b[..|b| - 1];
      assert (a + b)[..|a + b| - 1] == a + b';
      assert (a + b)[|a + b| - 1] == b[|b| - 1];
      WithKeyConcat(a, b', key, k);
    }
  }

  lemma {:induction false} InsertWithKey<T>(r: seq<T>, x: T, key: T -> int, k: int)
    ensures WithKey(Insert(r, x, key), key, k)
         == WithKey(r, key, k) + (if key(x) == k then [x] else [])
  {
    if r == [] || key(r[|r| - 1]) <= key(x) {
      WithKeyConcat(r, [x], key, k);
      assert [x][..0] == [];
    } else {
      var r', y := r[..|r| - 1], r[|r| - 1];
      assert r == r' + [y];
      assert [y][..0] == [];
      InsertWithKey(r', x, key, k);
      WithKeyConcat(Insert(r', x, key), [y], key, k);
      WithKeyConcat(r', [y], key, k);
      if key(x) == k {
        assert WithKey([y], key, k) == [];
      } else {
        assert WithKey([x], key, k) == [] by {
          assert [x][..0] == [];
        }
      }
    }
  }

  /** Stability: the sort keeps the input order among elements of equal key. */
  lemma {:induction false} SortByKeyStable<T>(s: seq<T>, key: T -> int, k: int)
    ensures WithKey(SortByKey(s, key), key, k) == WithKey(s, key, k)
  {
    if s != [] {
      SortByKeyStable(s[..|s| - 1], key, k);
      InsertWithKey(SortByKey(s[..|s| - 1], key), s[|s| - 1], key, k);
    }
  }

  /** Sorting by a key that differs from another by a constant on the
      elements sorted gives the same order. */
  lemma {:induction false} SortByShiftedKey<T>(s: seq<T>, k1: T -> int, k2: T -> int, c: int)
    requires forall x :: x in s ==> k1(x) == k2(x) + c
    ensures SortByKey(s, k1) == SortByKey(s, k2)
  {
    if s != [] {
      var s' := s[..|s| - 1];
      assert forall x :: x in s' ==> x in s;
      SortByShiftedKey(s', k1, k2, c);
      SortByKeyPermutes(s', k1);
      assert forall y :: y in SortByKey(s', k1) ==> y in multiset(s');
      InsertShiftedKey(SortByKey(s', k1), s[|s| - 1], k1, k2, c);
    }
  }

  lemma {:induction false} InsertShiftedKey<T>(r: seq<T>, x: T, k1: T -> int, k2: T -> int, c: int)
    requires k1(x) == k2(x) + c
    requires forall y :: y in r ==> k1(y) == k2(y) + c
    ensures Insert(r, x, k1) == Insert(r, x, k2)
  {
    if r != [] {
      assert r[|r| - 1] in r;
      assert forall y :: y in r[..|r| - 1] ==> y in r;
      InsertShiftedKey(r[..|r| - 1], x, k1, k2, c);
    }
  }

  /** Every element left out of a suffix of a sorted sequence has a key at
      most as large as every element of the suffix. */
  lemma SortedSuffixComesLast<T>(s: seq<T>, key: T -> int, m: nat, x: T, i: nat)
    requires SortedBy(s, key) && m <= |s| && m <= i < |s|
    requires x in multiset(s) - multiset(s[m..])
    ensures key(x) <= key(s[i])
  {
    assert s == s[..m] + s[m..];
    assert multiset(s) == multiset(s[..m]) + multiset(s[m..]);
    assert x in multiset(s[..m]);
    var j :| 0 <= j < m && s[..m][j] == x;
    assert s[j] == x;
  }

  /** `s.map(f)`. */
  function Map<T, U>(s: seq<T>, f: T -> U): (r: seq<U>)
    ensures |r| == |s|
    ensures forall i :: 0 <= i < |s| ==> r[i] == f(s[i])
  {
    if s == [] then [] else Map(s[..|s| - 1], f) + [f(s[|s| - 1])]
  }

  /** One more element adds its share to a filtered sum when it passes. */
  lemma SumOfFilterSnoc<T(!new)>(s: seq<T>, x: T, p: T -> bool, f: T -> real)
    ensures SumOf(Filter(s + [x], p), f) == SumOf(Filter(s, p), f) + (if p(x) then f(x) else 0.0)
  {
    FilterConcat(s, [x], p);
    SumOfConcat(Filter(s, p), Filter([x], p), f);
    assert [x][..0] == [];
    assert SumOf([x], f) == f(x);
  }

  /** Summing only what passes p is summing f masked to zero elsewhere. */
  lemma {:induction false} SumOfFilterMasked<T(!new)>(s: seq<T>, p: T -> bool, f: T -> real, g: T -> real)
    requires forall x :: g(x) == if p(x) then f(x) else 0.0
    ensures SumOf(Filter(s, p), f) == SumOf(s, g)
  {
    if s != [] {
      var s' := s[..|s| - 1];
      SumOfFilterMasked(s', p, f, g);
      assert s == s' + [s[|s| - 1]];
      SumOfFilterSnoc(s', s[|s| - 1], p, f);
    }
  }

  /** Two sums agree when their terms agree one by one. */
  lemma {:induction false} SumOfPointwise<A, B>(a: seq<A>, f: A -> real, b: seq<B>, g: B -> real)
    requires |a| == |b|
    requires forall i :: 0 <= i < |a| ==> f(a[i]) == g(b[i])
    ensures SumOf(a, f) == SumOf(b, g)
  {
    if a != [] {
      SumOfPointwise(a[..|a| - 1], f, b[..|b| - 1], g);
    }
  }

  /** `x => keyOf(x) === k`. */
  function HasKey<T, K(==)>(keyOf: T -> K, k: K): T -> bool {
    (x: T) => keyOf(x) == k
  }

  /** The sum of f over the elements whose key is k: one entry of an
      aggregate keyed by keyOf. */
  function KeyTotal<T, K(==)>(s: seq<T>, keyOf: T -> K, f: T -> real, k: K): real {
    if s == [] then 0.0
    else KeyTotal(s[..|s| - 1], keyOf, f, k) + (if keyOf(s[|s| - 1]) == k then f(s[|s| - 1]) else 0.0)
  }

  /** A key's total is the sum over the elements filtered by that key. */
  lemma {:induction false} KeyTotalIsFilteredSum<T(!new), K>(s: seq<T>, keyOf: T -> K, f: T -> real, k: K)
    ensures KeyTotal(s, keyOf, f, k) == SumOf(Filter(s, HasKey(keyOf, k)), f)
  {
    if s != [] {
      var s' := s[..|s| - 1];
      KeyTotalIsFilteredSum(s', keyOf, f, k);
      assert s == s' + [s[|s| - 1]];
      SumOfFilterSnoc(s', s[|s| - 1], HasKey(keyOf, k), f);
    }
  }

  lemma KeyTotalSnoc<T, K>(s: seq<T>, x: T, keyOf: T -> K, f: T -> real, k: K)
    ensures KeyTotal(s + [x], keyOf, f, k) == KeyTotal(s, keyOf, f, k) + (if keyOf(x) == k then f(x) else 0.0)
  {
    assert (s + [x])[..|s|] == s;
  }

  /** The aggregate's entries for the given keys, in their order. */
  function KeyTotals<T(!new), K(==)>(keys: seq<K>, s: seq<T>, keyOf: T -> K, f: T -> real): (r: seq<real>)
    ensures |r| == |keys|
    ensures forall i :: 0 <= i < |keys| ==> r[i] == KeyTotal(s, keyOf, f, keys[i])
  {
    if keys == [] then []
    else KeyTotals(keys[..|keys| - 1], s, keyOf, f) + [KeyTotal(s, keyOf, f, keys[|keys| - 1])]
  }

  function Id(x: real): real { x }

  /** One more element adds its share to exactly one entry, if its key is among the keys. */
  lemma {:induction false} KeyTotalsSnoc<T(!new), K>(keys: seq<K>, s: seq<T>, x: T, keyOf: T -> K, f: T -> real)
    requires Distinct(keys)
    ensures SumOf(KeyTotals(keys, s + [x], keyOf, f), Id)
         == SumOf(KeyTotals(keys, s, keyOf, f), Id) + (if keyOf(x) in keys then f(x) else 0.0)
  {
    if keys != [] {
      var keys', k := keys[..|keys| - 1], keys[|keys| - 1];
      assert Distinct(keys');
      assert keys == keys' + [k];
      KeyTotalsSnoc(keys', s, x, keyOf, f);
      KeyTotalSnoc(s, x, keyOf, f, k);
      assert keyOf(x) in keys <==> keyOf(x) in keys' || keyOf(x) == k;
      assert k !in keys';
    }
  }

  /** When every element's key is among distinct keys, the entries of the
      aggregate add up to the sum over all elements. */
  lemma {:induction false} KeyTotalsCover<T(!new), K>(keys: seq<K>, s: seq<T>, keyOf: T -> K, f: T -> real)
    requires Distinct(keys)
    requires forall x :: x in s ==> keyOf(x) in keys
    ensures SumOf(KeyTotals(keys, s, keyOf, f), Id) == SumOf(s, f)
  {
    if s == [] {
      KeyTotalsEmpty(keys, keyOf, f);
    } else {
      var s', x := s[..|s| - 1], s[|s| - 1];
      assert s == s' + [x];
      KeyTotalsCover(keys, s', keyOf, f);
      KeyTotalsSnoc(keys, s', x, keyOf, f);
    }
  }

  lemma {:induction false} KeyTotalsEmpty<T(!new), K>(keys: seq<K>, keyOf: T -> K, f: T -> real)
    ensures SumOf(KeyTotals(keys, [], keyOf, f), Id) == 0.0
  {
    if keys != [] {
      KeyTotalsEmpty(keys[..|keys| - 1], keyOf, f);
    }
  }

  /** The distinct keys of the elements of s, in the order they first occur:
      the key order of a JavaScript object filled while walking s. */
  function Keys<T, K(==)>(s: seq<T>, keyOf: T -> K): seq<K> {
    if s == [] then []
    else
      var ks, k := Keys(s[..|s| - 1], keyOf), keyOf(s[|s| - 1]);
      if k in ks then ks else ks + [k]
  }

  /** A key is listed exactly when some element has it. */
  lemma {:induction false} KeysMembers<T, K>(s: seq<T>, keyOf: T -> K, k: K)
    ensures k in Keys(s, keyOf) <==> exists i :: 0 <= i < |s| && keyOf(s[i]) == k
  {
    if s != [] {
      var s' := s[..|s| - 1];
      KeysMembers(s', keyOf, k);
      if exists i :: 0 <= i < |s'| && keyOf(s'[i]) == k {
        var i :| 0 <= i < |s'| && keyOf(s'[i]) == k;
        assert s[i] == s'[i];
      }
      if exists i :: 0 <= i < |s| && keyOf(s[i]) == k {
        var i :| 0 <= i < |s| && keyOf(s[i]) == k;
        if i < |s'| {
          assert s'[i] == s[i];
        }
      }
    }
  }

  /** The same, in terms of the sequence of keys. */
  lemma KeysInMap<T, K>(s: seq<T>, keyOf: T -> K, k: K)
    ensures k in Keys(s, keyOf) <==> k in Map(s, keyOf)
  {
    KeysMembers(s, keyOf, k);
    var m := Map(s, keyOf);
    if k in m {
      var i :| 0 <= i < |m| && m[i] == k;
    }
    if exists i :: 0 <= i < |s| && keyOf(s[i]) == k {
      var i :| 0 <= i < |s| && keyOf(s[i]) == k;
      assert m[i] == k;
    }
  }

  lemma KeyMembersByElement<T, K>(s: seq<T>, keyOf: T -> K, k: K)
    ensures k in Keys(s, keyOf) <==> exists x :: x in s && keyOf(x) == k
  {
    KeysMembers(s, keyOf, k);
    if exists x :: x in s && keyOf(x) == k {
      var x :| x in s && keyOf(x) == k;
      var i :| 0 <= i < |s| && s[i] == x;
    }
  }

  /** No key is listed twice. */
  lemma {:induction false} KeysDistinct<T, K>(s: seq<T>, keyOf: T -> K)
    ensures Distinct(Keys(s, keyOf))
  {
    if s != [] {
      KeysDistinct(s[..|s| - 1], keyOf);
    }
  }

  /** The keys are listed in the order in which they first occur. */
  lemma {:induction false} KeysFirstOccurrence<T, K>(s: seq<T>, keyOf: T -> K, i: nat, j: nat)
    requires i < j < |Keys(s, keyOf)|
    ensures Keys(s, keyOf)[i] in Map(s, keyOf) && Keys(s, keyOf)[j] in Map(s, keyOf)
    ensures FirstIndex(Map(s, keyOf), Keys(s, keyOf)[i]) < FirstIndex(Map(s, keyOf), Keys(s, keyOf)[j])
  {
    var s', x := s[..|s| - 1], s[|s| - 1];
    var m, m' := Map(s, keyOf), Map(s', keyOf);
    assert m[..|m| - 1] == m';
    var ks := Keys(s', keyOf);
    var a, b := Keys(s, keyOf)[i], Keys(s, keyOf)[j];
    KeysInMap(s, keyOf, a);
    KeysInMap(s, keyOf, b);
    KeysInMap(s', keyOf, a);
    if j < |ks| {
      assert a == ks[i] && b == ks[j];
      KeysFirstOccurrence(s', keyOf, i, j);
      KeysInMap(s', keyOf, b);
      FirstIndexOfPrefix(m, |m| - 1, a);
      FirstIndexOfPrefix(m, |m| - 1, b);
    } else {
      // b is the key of the last element, which no earlier element has
      assert b == keyOf(x) && b !in ks;
      KeysInMap(s', keyOf, b);
      FirstIndexOfPrefix(m, |m| - 1, a);
      FirstIndexOfNew(m);
    }
  }

  /** Every element's key is listed. */
  lemma KeysCoverAll<T, K>(s: seq<T>, keyOf: T -> K)
    ensures forall x :: x in s ==> keyOf(x) in Keys(s, keyOf)
  {
    forall x | x in s ensures keyOf(x) in Keys(s, keyOf) {
      var i :| 0 <= i < |s| && s[i] == x;
      KeysMembers(s, keyOf, keyOf(x));
    }
  }

  /** What a JavaScript object filled by `agg[key(x)] = (agg[key(x)] || 0) + f(x)`
      over s holds: its keys, in insertion order, and each key's total. */
  ghost predicate Aggregated<T(!new), K(!new)>(s: seq<T>, keyOf: T -> K, f: T -> real, keys: seq<K>, agg: map<K, real>) {
    keys == Keys(s, keyOf)
    && (forall k :: k in agg <==> k in keys)
    && (forall k :: k in keys ==> agg[k] == KeyTotal(s, keyOf, f, k))
  }

  lemma AggregatedEmpty<T(!new), K(!new)>(keyOf: T -> K, f: T -> real)
    ensures Aggregated([], keyOf, f, [], map[])
  {
  }

  /** One more element: a new key is appended and starts from zero, a known
      key adds to its total. */
  lemma AggregatedStep<T(!new), K(!new)>(s: seq<T>, x: T, keyOf: T -> K, f: T -> real, keys: seq<K>, agg: map<K, real>)
    requires Aggregated(s, keyOf, f, keys, agg)
    ensures var k := keyOf(x);
      Aggregated(s + [x], keyOf, f,
        if k in agg then keys else keys + [k],
        agg[k := (if k in agg then agg[k] else 0.0) + f(x)])
  {
    var k := keyOf(x);
    var keys' := if k in agg then keys else keys + [k];
    var agg' := agg[k := (if k in agg then agg[k] else 0.0) + f(x)];
    assert (s + [x])[..|s|] == s;
    assert keys' == Keys(s + [x], keyOf);
    TotalsStep(s, x, keyOf, f, keys, agg);
    assert forall k' :: k' in agg' <==> k' in keys';
  }

  lemma TotalsStep<T(!new), K(!new)>(s: seq<T>, x: T, keyOf: T -> K, f: T -> real, keys: seq<K>, agg: map<K, real>)
    requires keys == Keys(s, keyOf)
    requires forall k :: k in agg <==> k in keys
    requires forall k :: k in keys ==> agg[k] == KeyTotal(s, keyOf, f, k)
    ensures var k := keyOf(x);
      var agg' := agg[k := (if k in agg then agg[k] else 0.0) + f(x)];
      forall k' :: k' in agg' ==> agg'[k'] == KeyTotal(s + [x], keyOf, f, k')
  {
    var k := keyOf(x);
    var agg' := agg[k := (if k in agg then agg[k] else 0.0) + f(x)];
    if k !in agg {
      KeyTotalOfNewKey(s, keyOf, f, k);
    }
    forall k' | k' in agg' ensures agg'[k'] == KeyTotal(s + [x], keyOf, f, k') {
      KeyTotalSnoc(s, x, keyOf, f, k');
    }
  }

  /** A key that no element has totals zero. */
  lemma {:induction false} KeyTotalOfNewKey<T, K>(s: seq<T>, keyOf: T -> K, f: T -> real, k: K)
    requires k !in Keys(s, keyOf)
    ensures KeyTotal(s, keyOf, f, k) == 0.0
  {
    if s != [] {
      var s' := s[..|s| - 1];
      assert k !in Keys(s', keyOf);
      KeyTotalOfNewKey(s', keyOf, f, k);
    }
  }

  lemma MapTail<T, U>(s: seq<T>, f: T -> U)
    requires |s| > 0
    ensures Map(s, f) == [f(s[0])] + Map(s[1..], f)
  {
  }

  /** A loop's processed prefix grows by the next element. */
  lemma PrefixSnoc<T>(s: seq<T>, i: nat)
    requires i < |s|
    ensures s[..i + 1] == s[..i] + [s[i]]
  {
  }

  lemma PrefixAll<T>(s: seq<T>)
    ensures s[..|s|] == s
  {
  }

  /** `parts.join(sep)`. */
  function Join(parts: seq<string>, sep: char): string {
    if parts == [] then ""
    else if |parts| == 1 then parts[0]
    else parts[0] + [sep] + Join(parts[1..], sep)
  }

  /** Joining the images of at least two elements: the first image, the
      separator, then the join of the rest. */
  lemma JoinMapMore<T>(s: seq<T>, f: T -> string, sep: char, rest: string)
    requires |s| >= 2
    ensures Join(Map(s, f), sep) + rest == f(s[0]) + ([sep] + (Join(Map(s[1..], f), sep) + rest))
  {
    var m := Map(s, f);
    MapTail(s, f);
    JoinMore(m, sep, rest);
  }

  lemma JoinMore(parts: seq<string>, sep: char, rest: string)
    requires |parts| >= 2
    ensures Join(parts, sep) + rest == parts[0] + ([sep] + (Join(parts[1..], sep) + rest))
  {
    assert Join(parts, sep) == parts[0] + [sep] + Join(parts[1..], sep);
  }

  lemma JoinMapOne<T>(s: seq<T>, f: T -> string, sep: char)
    requires |s| == 1
    ensures Join(Map(s, f), sep) == f(s[0])
  {
  }
}
