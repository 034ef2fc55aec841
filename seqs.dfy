/**
 * The array operations the catalogue components compose: `filter`,
 * `Array.from(new Set(...))` (distinct values in first-appearance order) and
 * `slice(0, n)`, together with what "order preserving" means for them.
 */
module Seqs {

  /** `s.filter(p)`: the elements satisfying `p`, in their original order. */
  function Filter<T>(s: seq<T>, p: T -> bool): (r: seq<T>)
    ensures |r| <= |s|
    ensures forall i | 0 <= i < |r| :: r[i] in s && p(r[i])
  {
    if s == [] then []
    else
      assert s == [s[0]] + s[1..];
      (if p(s[0]) then [s[0]] else []) + Filter(s[1..], p)
  }

  /** Every element that passes the predicate is kept. */
  lemma {:induction false} FilterComplete<T>(s: seq<T>, p: T -> bool, x: T)
    requires x in s && p(x)
    ensures x in Filter(s, p)
  {
    if s[0] != x {
      FilterComplete(s[1..], p, x);
    }
  }

  /** A filter that every element passes returns the list unchanged. */
  lemma {:induction false} FilterKeepsAll<T>(s: seq<T>, p: T -> bool)
    requires forall x :: x in s ==> p(x)
    ensures Filter(s, p) == s
  {
    if s != [] {
      FilterKeepsAll(s[1..], p);
    }
  }

  /** `idx` lists, in increasing order, the positions of `s` that make up `r`. */
  ghost predicate IsEmbedding<T>(r: seq<T>, s: seq<T>, idx: seq<nat>) {
    && |idx| == |r|
    && (forall k | 0 <= k < |idx| :: idx[k] < |s| && r[k] == s[idx[k]])
    && (forall k, l | 0 <= k < l < |idx| :: idx[k] < idx[l])
  }

  /** `r` is `s` with some elements left out and the rest kept in order. */
  ghost predicate IsSubsequence<T>(r: seq<T>, s: seq<T>) {
    exists idx :: IsEmbedding(r, s, idx)
  }

  /** Every position moved one place to the right. */
  ghost function Shift(idx: seq<nat>): (r: seq<nat>)
    ensures |r| == |idx|
    ensures forall k | 0 <= k < |idx| :: r[k] == idx[k] + 1
  {
    seq(|idx|, k requires 0 <= k < |idx| => idx[k] + 1)
  }

  /** An embedding into the tail of `s` is, shifted, an embedding into `s`. */
  lemma EmbeddingInTail<T>(r: seq<T>, s: seq<T>, idx: seq<nat>)
    requires |s| > 0 && IsEmbedding(r, s[1..], idx)
    ensures IsEmbedding(r, s, Shift(idx))
  {
    var sh := Shift(idx);
    forall k | 0 <= k < |sh|
      ensures sh[k] < |s| && r[k] == s[sh[k]]
    {
      assert s[1..][idx[k]] == s[idx[k] + 1];
    }
  }

  /** Prepending the head of `s` extends an embedding into its tail. */
  lemma EmbeddingCons<T>(r: seq<T>, s: seq<T>, idx: seq<nat>)
    requires |s| > 0 && IsEmbedding(r, s[1..], idx)
    ensures IsEmbedding([s[0]] + r, s, [0] + Shift(idx))
  {
    EmbeddingInTail(r, s, idx);
  }

  /**
   * The positions a filter keeps: strictly increasing, and every position whose
   * element passes the predicate is among them.
   */
  lemma {:induction false} FilterEmbedding<T>(s: seq<T>, p: T -> bool) returns (idx: seq<nat>)
    ensures IsEmbedding(Filter(s, p), s, idx)
    ensures forall j | 0 <= j < |s| && p(s[j]) :: j in idx
  {
    if s == [] {
      idx := [];
    } else {
      var rest := FilterEmbedding(s[1..], p);
      ShiftCovers(s, p, rest);
      idx := FilterStep(s, p, rest);
    }
  }

  /** One element in front of the tail: the tail's embedding, shifted, with position 0 when the head passes. */
  lemma FilterStep<T>(s: seq<T>, p: T -> bool, rest: seq<nat>) returns (idx: seq<nat>)
    requires |s| > 0 && IsEmbedding(Filter(s[1..], p), s[1..], rest)
    ensures IsEmbedding(Filter(s, p), s, idx)
    ensures p(s[0]) ==> idx == [0] + Shift(rest)
    ensures !p(s[0]) ==> idx == Shift(rest)
  {
    var tail := Filter(s[1..], p);
    if p(s[0]) {
      EmbeddingCons(tail, s, rest);
      idx := [0] + Shift(rest);
      assert Filter(s, p) == [s[0]] + tail;
    } else {
      EmbeddingInTail(tail, s, rest);
      idx := Shift(rest);
      assert Filter(s, p) == tail;
    }
  }

  /** Positions in the tail that cover every passing element there cover, shifted, every passing element after the head. */
  lemma ShiftCovers<T>(s: seq<T>, p: T -> bool, rest: seq<nat>)
    requires |s| > 0
    requires forall j | 0 <= j < |s[1..]| && p(s[1..][j]) :: j in rest
    ensures forall j | 1 <= j < |s| && p(s[j]) :: j in Shift(rest)
  {
    forall j | 1 <= j < |s| && p(s[j])
      ensures j in Shift(rest)
    {
      assert s[1..][j - 1] == s[j];
      var k :| 0 <= k < |rest| && rest[k] == j - 1;
      assert Shift(rest)[k] == j;
    }
  }

  /** Filtering is order preserving: its result is a subsequence of its input. */
  lemma FilterIsSubsequence<T>(s: seq<T>, p: T -> bool)
    ensures IsSubsequence(Filter(s, p), s)
  {
    var idx := FilterEmbedding(s, p);
  }

  /** No element occurs twice. */
  ghost predicate NoDuplicates<T>(s: seq<T>) {
    forall i, j | 0 <= i < j < |s| :: s[i] != s[j]
  }

  /** `s` with every occurrence of `y` taken out. */
  function Remove<T(==)>(s: seq<T>, y: T): (r: seq<T>)
    ensures |r| <= |s|
    ensures forall i | 0 <= i < |r| :: r[i] in s && r[i] != y
  {
    if s == [] then []
    else
      assert s == [s[0]] + s[1..];
      (if s[0] == y then [] else [s[0]]) + Remove(s[1..], y)
  }

  /** Every element other than `y` survives the removal. */
  lemma {:induction false} RemoveComplete<T>(s: seq<T>, y: T, x: T)
    requires x in s && x != y
    ensures x in Remove(s, y)
  {
    if s[0] != x {
      RemoveComplete(s[1..], y, x);
    }
  }

  /**
   * `Array.from(new Set(s))`: each distinct element once. A JavaScript `Set`
   * iterates in insertion order, so elements come in order of first appearance.
   */
  function Distinct<T(==)>(s: seq<T>): (r: seq<T>)
    ensures forall i | 0 <= i < |r| :: r[i] in s
    ensures NoDuplicates(r)
    decreases |s|
  {
    if s == [] then []
    else
      assert s == [s[0]] + s[1..];
      [s[0]] + Distinct(Remove(s[1..], s[0]))
  }

  /** Every element of `s` is in `Distinct(s)`. */
  lemma {:induction false} DistinctComplete<T>(s: seq<T>, x: T)
    requires x in s
    ensures x in Distinct(s)
    decreases |s|
  {
    if s[0] != x {
      RemoveComplete(s[1..], s[0], x);
      DistinctComplete(Remove(s[1..], s[0]), x);
    }
  }

  /** Some occurrence of `x` in `s` comes before every occurrence of `y`. */
  ghost predicate Before<T>(s: seq<T>, x: T, y: T) {
    exists p | 0 <= p < |s| && s[p] == x :: forall q | 0 <= q <= p :: s[q] != y
  }

  /** The head of `s` comes before any other value. */
  lemma BeforeHead<T>(s: seq<T>, y: T)
    requires |s| > 0 && s[0] != y
    ensures Before(s, s[0], y)
  {
    assert forall q | 0 <= q <= 0 :: s[q] != y;
  }

  /** An order in the tail carries over to `s` when the head is not `y`. */
  lemma BeforeCons<T>(s: seq<T>, x: T, y: T)
    requires |s| > 0 && s[0] != y && Before(s[1..], x, y)
    ensures Before(s, x, y)
  {
    var p :| 0 <= p < |s[1..]| && s[1..][p] == x && forall q | 0 <= q <= p :: s[1..][q] != y;
    assert s[p + 1] == x;
    forall q | 0 <= q <= p + 1 ensures s[q] != y {
      if q > 0 { assert s[q] == s[1..][q - 1]; }
    }
  }

  /** Removing a third value never reverses the order of two others. */
  lemma {:induction false} RemoveBefore<T>(s: seq<T>, z: T, x: T, y: T)
    requires y != z && Before(Remove(s, z), x, y)
    ensures Before(s, x, y)
  {
    var r := Remove(s, z);
    var rest := Remove(s[1..], z);
    if s[0] == z {
      assert r == rest;
      RemoveBefore(s[1..], z, x, y);
      BeforeCons(s, x, y);
    } else {
      assert r == [s[0]] + rest;
      var p :| 0 <= p < |r| && r[p] == x && forall q | 0 <= q <= p :: r[q] != y;
      assert r[0] == s[0];
      if s[0] == x {
        assert s[0] != y;
      } else {
        assert rest[p - 1] == x;
        assert Before(rest, x, y) by {
          forall q | 0 <= q <= p - 1 ensures rest[q] != y { assert rest[q] == r[q + 1]; }
        }
        RemoveBefore(s[1..], z, x, y);
        BeforeCons(s, x, y);
      }
    }
  }

  /** One pair of positions of `Distinct(s)` is ordered by first appearance in `s`. */
  lemma {:induction false} DistinctPairOrder<T>(s: seq<T>, i: nat, j: nat)
    requires i < j < |Distinct(s)|
    ensures Before(s, Distinct(s)[i], Distinct(s)[j])
    decreases |s|
  {
    var f := Remove(s[1..], s[0]);
    var y := DistinctTailElement(s, j);
    if i == 0 {
      BeforeHead(s, y);
    } else {
      var x := DistinctTailElement(s, i);
      DistinctPairOrder(f, i - 1, j - 1);
      RemoveBefore(s[1..], s[0], x, y);
      BeforeCons(s, x, y);
    }
  }

  /** Past the head, `Distinct(s)` continues with the distinct elements of the rest without the head. */
  lemma DistinctTailElement<T>(s: seq<T>, k: nat) returns (y: T)
    requires 0 < k < |Distinct(s)|
    ensures |s| > 0 && Distinct(s)[0] == s[0]
    ensures k - 1 < |Distinct(Remove(s[1..], s[0]))|
    ensures y == Distinct(s)[k] == Distinct(Remove(s[1..], s[0]))[k - 1]
    ensures y != s[0]
  {
    var f := Remove(s[1..], s[0]);
    var d := Distinct(f);
    assert Distinct(s) == [s[0]] + d;
    y := d[k - 1];
    assert y in f;
    var p :| 0 <= p < |f| && f[p] == y;
  }

  /** The elements of `Distinct(s)` come in the order of their first appearance in `s`. */
  lemma DistinctFirstAppearanceOrder<T>(s: seq<T>)
    ensures forall i, j | 0 <= i < j < |Distinct(s)| :: Before(s, Distinct(s)[i], Distinct(s)[j])
  {
    forall i, j | 0 <= i < j < |Distinct(s)|
      ensures Before(s, Distinct(s)[i], Distinct(s)[j])
    {
      DistinctPairOrder(s, i, j);
    }
  }

  /** Every element of `s` occurs exactly once in `Distinct(s)`. */
  lemma DistinctOnce<T>(s: seq<T>, x: T)
    requires x in s
    ensures exists i :: 0 <= i < |Distinct(s)| && Distinct(s)[i] == x
    ensures forall i, j | 0 <= i < |Distinct(s)| && 0 <= j < |Distinct(s)| && Distinct(s)[i] == x && Distinct(s)[j] == x :: i == j
  {
    DistinctComplete(s, x);
  }

  /** `s.slice(0, n)`: the first `n` elements, or all of them when there are fewer. */
  function Take<T>(s: seq<T>, n: nat): (r: seq<T>)
    ensures |r| <= n && |r| <= |s|
    ensures r == s[..|r|]
    ensures |s| >= n ==> |r| == n
  {
    if |s| <= n then s else s[..n]
  }

  /** `s.map(f)`. */
  function Map<T, U>(s: seq<T>, f: T -> U): (r: seq<U>)
    ensures |r| == |s|
    ensures forall i | 0 <= i < |s| :: r[i] == f(s[i])
  {
    seq(|s|, i requires 0 <= i < |s| => f(s[i]))
  }

  /** Number of `true` entries. */
  function CountTrue(s: seq<bool>): nat {
    if s == [] then 0 else (if s[0] then 1 else 0) + CountTrue(s[1..])
  }

  /** `n` flags of which only the one at position `k`, if there is one, is set. */
  function OneHot(n: nat, k: int): (r: seq<bool>)
    ensures |r| == n
    ensures forall i | 0 <= i < n :: r[i] <==> i == k
  {
    seq(n, i => i == k)
  }

  /** One flag is set when `k` is a position, none otherwise. */
  lemma {:induction false} OneHotCount(n: nat, k: int)
    ensures CountTrue(OneHot(n, k)) == if 0 <= k < n then 1 else 0
  {
    if n > 0 {
      assert OneHot(n, k)[1..] == OneHot(n - 1, k - 1);
      OneHotCount(n - 1, k - 1);
    }
  }
}
