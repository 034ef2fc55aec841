/**
 * The slide index arithmetic of the awards and testimonial carousels. Both
 * operands of the remainder are never negative here, so JavaScript's `%`
 * and Dafny's agree.
 */
module Carousel {
  import Seqs

  /** `(i + 1) % n`: the next slide, wrapping from the last to the first. */
  function Next(i: nat, n: nat): (r: nat)
    requires n > 0
    ensures r < n
    ensures i + 1 < n ==> r == i + 1
    ensures i + 1 == n ==> r == 0
  {
    (i + 1) % n
  }

  /** `(i - 1 + n) % n`: the previous slide, wrapping from the first to the last. */
  function Prev(i: nat, n: nat): (r: nat)
    requires n > 0
    ensures r < n
    ensures 0 < i <= n ==> r == i - 1
    ensures i == 0 ==> r == n - 1
  {
    (i - 1 + n) % n
  }

  /** Going back undoes going forward and the other way round. */
  lemma PrevNext(i: nat, n: nat)
    requires i < n
    ensures Prev(Next(i, n), n) == i
    ensures Next(Prev(i, n), n) == i
  {
  }

  /** The slide reached from `i` after `k` steps forward. */
  function Advance(i: nat, n: nat, k: nat): (r: nat)
    requires n > 0
    ensures i < n || k > 0 ==> r < n
  {
    if k == 0 then i else Next(Advance(i, n, k - 1), n)
  }

  /** Short of the end, `k` steps forward from `i` reach `i + k`. */
  lemma {:induction false} AdvanceLinear(i: nat, n: nat, k: nat)
    requires n > 0 && i + k < n
    ensures Advance(i, n, k) == i + k
  {
    if k > 0 {
      AdvanceLinear(i, n, k - 1);
    }
  }

  /** `a + b` steps are `a` steps followed by `b` steps. */
  lemma {:induction false} AdvanceSplit(i: nat, n: nat, a: nat, b: nat)
    requires n > 0
    ensures Advance(i, n, a + b) == Advance(Advance(i, n, a), n, b)
  {
    if b > 0 {
      AdvanceSplit(i, n, a, b - 1);
    }
  }

  /** `n` steps forward go once round and come back to the starting slide. */
  lemma FullCycle(i: nat, n: nat)
    requires n > 0 && i < n
    ensures Advance(i, n, n) == i
  {
    AdvanceLinear(i, n, n - i - 1);
    assert Advance(i, n, n - i) == 0;
    AdvanceSplit(i, n, n - i, i);
    if i > 0 {
      AdvanceLinear(0, n, i);
    }
  }

  /**
   * The active styling of the slides and their dots: exactly one flag is
   * set, the one of the shown slide.
   */
  function Highlight(active: nat, n: nat): (r: seq<bool>)
    requires active < n
    ensures |r| == n && Seqs.CountTrue(r) == 1
    ensures forall i | 0 <= i < n :: r[i] <==> i == active
  {
    Seqs.OneHotCount(n, active);
    Seqs.OneHot(n, active)
  }
}
