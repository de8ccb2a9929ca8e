/**
 * The list operations the dashboards are built from: `Array.prototype.filter`,
 * `Array.prototype.slice`, and grouping a list by a key while summing a weight
 * per group (the accumulator `reduce`s that build per-type and per-day totals).
 */
module Collections {

  // ---------------------------------------------------------------------
  // filter
  // ---------------------------------------------------------------------

  function Filter<T>(s: seq<T>, keep: T -> bool): (r: seq<T>)
    ensures |r| <= |s|
  {
    if s == [] then [] else (if keep(s[0]) then [s[0]] else []) + Filter(s[1..], keep)
  }

  /** Filtering distributes over concatenation: the result keeps the input's order. */
  lemma {:induction false} FilterConcat<T>(s: seq<T>, t: seq<T>, keep: T -> bool)
    ensures Filter(s + t, keep) == Filter(s, keep) + Filter(t, keep)
  {
    if s != [] {
      assert (s + t)[0] == s[0];
      assert (s + t)[1..] == s[1..] + t;
      FilterConcat(s[1..], t, keep);
    } else {
      assert s + t == t;
    }
  }

  /** `a` is `b` with some elements left out, the rest in their original order. */
  ghost predicate Subsequence<T>(a: seq<T>, b: seq<T>)
    decreases |b|
  {
    a == [] || (b != [] && ((a[0] == b[0] && Subsequence(a[1..], b[1..])) || Subsequence(a, b[1..])))
  }

  /** A filter's result is an order-preserving subsequence of its input. */
  lemma {:induction false} FilterIsSubsequence<T>(s: seq<T>, keep: T -> bool)
    ensures Subsequence(Filter(s, keep), s)
  {
    if s != [] {
      FilterIsSubsequence(s[1..], keep);
      var r := Filter(s, keep);
      if keep(s[0]) {
        assert r[0] == s[0] && r[1..] == Filter(s[1..], keep);
      } else {
        assert r == Filter(s[1..], keep);
      }
    }
  }

  /** Filtering one more element at the end appends it exactly when it is kept. */
  lemma FilterSnoc<T>(s: seq<T>, x: T, keep: T -> bool)
    ensures Filter(s + [x], keep) == Filter(s, keep) + (if keep(x) then [x] else [])
  {
    FilterConcat(s, [x], keep);
  }

  /** An element is in the result exactly when it is in the input and is kept. */
  lemma {:induction false} FilterMembership<T>(s: seq<T>, keep: T -> bool, x: T)
    ensures x in Filter(s, keep) <==> x in s && keep(x)
  {
    if s != [] {
      FilterMembership(s[1..], keep, x);
      assert s == [s[0]] + s[1..];
    }
  }

  /** Nothing is dropped when every element is kept. */
  lemma {:induction false} FilterKeepsAll<T>(s: seq<T>, keep: T -> bool)
    requires forall i :: 0 <= i < |s| ==> keep(s[i])
    ensures Filter(s, keep) == s
  {
    if s != [] {
      FilterKeepsAll(s[1..], keep);
    }
  }

  /** Everything is dropped when no element is kept. */
  lemma {:induction false} FilterKeepsNone<T>(s: seq<T>, keep: T -> bool)
    requires forall i :: 0 <= i < |s| ==> !keep(s[i])
    ensures Filter(s, keep) == []
  {
    if s != [] {
      FilterKeepsNone(s[1..], keep);
    }
  }

  /** A stronger predicate never keeps more elements. */
  lemma {:induction false} FilterMonotone<T>(s: seq<T>, p: T -> bool, q: T -> bool)
    requires forall x :: p(x) ==> q(x)
    ensures |Filter(s, p)| <= |Filter(s, q)|
  {
    if s != [] {
      FilterMonotone(s[1..], p, q);
    }
  }

  /** Two predicates that never hold together split off disjoint parts of the list. */
  lemma {:induction false} FilterDisjointCount<T>(s: seq<T>, p: T -> bool, q: T -> bool)
    requires forall x :: !(p(x) && q(x))
    ensures |Filter(s, p)| + |Filter(s, q)| <= |s|
  {
    if s != [] {
      FilterDisjointCount(s[1..], p, q);
    }
  }

  /** A predicate and its negation split the list exactly. */
  lemma {:induction false} FilterSplitCount<T>(s: seq<T>, p: T -> bool, q: T -> bool)
    requires forall x :: q(x) == !p(x)
    ensures |Filter(s, p)| + |Filter(s, q)| == |s|
  {
    if s != [] {
      FilterSplitCount(s[1..], p, q);
    }
  }

  /** Predicates that agree on every element of the list keep the same elements. */
  lemma {:induction false} FilterSamePredicate<T>(s: seq<T>, p: T -> bool, q: T -> bool)
    requires forall i :: 0 <= i < |s| ==> p(s[i]) == q(s[i])
    ensures Filter(s, p) == Filter(s, q)
  {
    if s != [] {
      FilterSamePredicate(s[1..], p, q);
    }
  }

  /** Filtering twice is filtering once by the conjunction. */
  lemma {:induction false} FilterOfFilter<T>(s: seq<T>, p: T -> bool, q: T -> bool, both: T -> bool)
    requires forall x :: both(x) == (p(x) && q(x))
    ensures Filter(Filter(s, p), q) == Filter(s, both)
  {
    if s != [] {
      FilterOfFilter(s[1..], p, q, both);
      FilterConcat(if p(s[0]) then [s[0]] else [], Filter(s[1..], p), q);
    }
  }

  // ---------------------------------------------------------------------
  // slice(start, end), with JavaScript's treatment of negative and
  // out-of-range indices
  // ---------------------------------------------------------------------

  function ClampIndex(i: int, n: nat): (r: nat)
    ensures r <= n
    ensures 0 <= i <= n ==> r == i
    ensures i > n ==> r == n
  {
    if i < 0 then (if n + i < 0 then 0 else n + i) else if i > n then n else i
  }

  function JsSlice<T>(s: seq<T>, start: int, end: int): (r: seq<T>)
    ensures |r| <= |s|
    ensures 0 <= start <= end ==>
              r == s[ClampIndex(start, |s|)..ClampIndex(end, |s|)]
  {
    var from, to := ClampIndex(start, |s|), ClampIndex(end, |s|);
    if to <= from then [] else s[from..to]
  }

  // ---------------------------------------------------------------------
  // Grouping by a key and summing a weight per group
  // ---------------------------------------------------------------------

  /** The keys of `s` in order of first occurrence (the key order of a JavaScript object built by `reduce`). */
  function DistinctKeys<T, K(==)>(s: seq<T>, key: T -> K): seq<K>
  {
    if s == [] then []
    else
      var d := DistinctKeys(s[..|s| - 1], key);
      var k := key(s[|s| - 1]);
      if k in d then d else d + [k]
  }

  /** The elements of `s` whose key is `k`, in their original order. */
  function Group<T, K(==)>(s: seq<T>, key: T -> K, k: K): seq<T>
  {
    Filter(s, HasKey(key, k))
  }

  function HasKey<T, K(==)>(key: T -> K, k: K): T -> bool
  {
    x => key(x) == k
  }

  /** The sum of `w` over the list. */
  function Weight<T>(s: seq<T>, w: T -> int): int
  {
    if s == [] then 0 else Weight(s[..|s| - 1], w) + w(s[|s| - 1])
  }

  function One<T>(x: T): int { 1 }

  /** The sum, over the keys `ks`, of the weight of each key's group. */
  function SumOver<T, K(==)>(ks: seq<K>, s: seq<T>, key: T -> K, w: T -> int): int
  {
    if ks == [] then 0 else SumOver(ks[..|ks| - 1], s, key, w) + Weight(Group(s, key, ks[|ks| - 1]), w)
  }

  predicate Distinct<K(==)>(ks: seq<K>) {
    forall i, j :: 0 <= i < j < |ks| ==> ks[i] != ks[j]
  }

  lemma {:induction false} WeightConcat<T>(s: seq<T>, t: seq<T>, w: T -> int)
    ensures Weight(s + t, w) == Weight(s, w) + Weight(t, w)
    decreases |t|
  {
    if t != [] {
      assert (s + t)[..|s + t| - 1] == s + t[..|t| - 1];
      assert (s + t)[|s + t| - 1] == t[|t| - 1];
      WeightConcat(s, t[..|t| - 1], w);
    } else {
      assert s + t == s;
    }
  }

  /** Counting is summing the weight one. */
  lemma {:induction false} WeightOne<T>(s: seq<T>)
    ensures Weight(s, One) == |s|
  {
    if s != [] {
      WeightOne(s[..|s| - 1]);
    }
  }

  lemma {:induction false} WeightNonNegative<T>(s: seq<T>, w: T -> int)
    requires forall x :: w(x) >= 0
    ensures Weight(s, w) >= 0
  {
    if s != [] {
      WeightNonNegative(s[..|s| - 1], w);
    }
  }

  lemma GroupSnoc<T, K>(s: seq<T>, x: T, key: T -> K, k: K, w: T -> int)
    ensures Group(s + [x], key, k) == Group(s, key, k) + (if key(x) == k then [x] else [])
    ensures Weight(Group(s + [x], key, k), w) == Weight(Group(s, key, k), w) + (if key(x) == k then w(x) else 0)
  {
    FilterSnoc(s, x, HasKey(key, k));
    WeightConcat(Group(s, key, k), if key(x) == k then [x] else [], w);
  }

  /** A key is listed exactly when some element carries it. */
  lemma {:induction false} DistinctKeysMembership<T, K>(s: seq<T>, key: T -> K, k: K)
    ensures k in DistinctKeys(s, key) <==> exists i :: 0 <= i < |s| && key(s[i]) == k
  {
    if s != [] {
      var p := s[..|s| - 1];
      DistinctKeysMembership(p, key, k);
      if exists i :: 0 <= i < |s| && key(s[i]) == k {
        var i :| 0 <= i < |s| && key(s[i]) == k;
        if i < |s| - 1 {
          assert key(p[i]) == k;
        }
      }
      if exists i :: 0 <= i < |p| && key(p[i]) == k {
        var i :| 0 <= i < |p| && key(p[i]) == k;
        assert key(s[i]) == k;
      }
    }
  }

  /** No key is listed twice. */
  lemma {:induction false} DistinctKeysAreDistinct<T, K>(s: seq<T>, key: T -> K)
    ensures Distinct(DistinctKeys(s, key))
  {
    if s != [] {
      DistinctKeysAreDistinct(s[..|s| - 1], key);
    }
  }

  /** A key no element carries has an empty group. */
  lemma GroupOfAbsentKey<T, K>(s: seq<T>, key: T -> K, k: K)
    requires k !in DistinctKeys(s, key)
    ensures Group(s, key, k) == []
  {
    DistinctKeysMembership(s, key, k);
    FilterKeepsNone(s, HasKey(key, k));
  }

  /** Adding one element to the list adds its weight once if its key is among `ks`. */
  lemma {:induction false} SumOverSnoc<T, K>(ks: seq<K>, s: seq<T>, x: T, key: T -> K, w: T -> int)
    requires Distinct(ks)
    ensures SumOver(ks, s + [x], key, w) == SumOver(ks, s, key, w) + (if key(x) in ks then w(x) else 0)
  {
    if ks != [] {
      var init := ks[..|ks| - 1];
      assert Distinct(init);
      SumOverSnoc(init, s, x, key, w);
      GroupSnoc(s, x, key, ks[|ks| - 1], w);
      assert key(x) in ks <==> key(x) in init || key(x) == ks[|ks| - 1];
      assert key(x) in init ==> key(x) != ks[|ks| - 1];
    }
  }

  /** Over distinct keys and non-negative weights the group sums never exceed the total. */
  lemma {:induction false} SumOverAtMostWeight<T, K>(ks: seq<K>, s: seq<T>, key: T -> K, w: T -> int)
    requires Distinct(ks)
    requires forall x :: w(x) >= 0
    ensures SumOver(ks, s, key, w) <= Weight(s, w)
  {
    if s == [] {
      SumOverOfEmpty(ks, key, w);
    } else {
      var p, x := s[..|s| - 1], s[|s| - 1];
      assert s == p + [x];
      SumOverAtMostWeight(ks, p, key, w);
      SumOverSnoc(ks, p, x, key, w);
    }
  }

  lemma {:induction false} SumOverOfEmpty<T, K>(ks: seq<K>, key: T -> K, w: T -> int)
    ensures SumOver(ks, [], key, w) == 0
  {
    if ks != [] {
      SumOverOfEmpty(ks[..|ks| - 1], key, w);
    }
  }

  /**
   * The groups partition the list: summing each distinct key's group weight
   * gives the weight of the whole list.
   */
  lemma {:induction false} GroupsPartitionWeight<T, K>(s: seq<T>, key: T -> K, w: T -> int)
    ensures SumOver(DistinctKeys(s, key), s, key, w) == Weight(s, w)
  {
    if s != [] {
      var p, x := s[..|s| - 1], s[|s| - 1];
      assert s == p + [x];
      var d := DistinctKeys(p, key);
      GroupsPartitionWeight(p, key, w);
      DistinctKeysAreDistinct(p, key);
      SumOverSnoc(d, p, x, key, w);
      if key(x) !in d {
        GroupOfAbsentKey(p, key, key(x));
        GroupSnoc(p, x, key, key(x), w);
        assert (d + [key(x)])[..|d|] == d;
      }
    }
  }
}
