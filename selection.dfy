/**
 * The single-selection toggle shared by the careers cards and the FAQ
 * accordion: pressing an item opens it, or closes it when it was the open
 * one, so at most one item is open at any time.
 */
module Selection {
  import opened Wrappers
  import Seqs

  /** The open item after item `x` is pressed. */
  function Toggle<T(==)>(open: Option<T>, x: T): (r: Option<T>)
    ensures r == Some(x) <==> open != Some(x)
    ensures r != Some(x) ==> r == None
  {
    if open == Some(x) then None else Some(x)
  }

  /**
   * Pressing the same item twice leaves things as they were when it was the
   * open one or nothing was open; when another item was open, that one stays closed.
   */
  lemma ToggleTwice<T>(open: Option<T>, x: T)
    ensures open == None || open == Some(x) ==> Toggle(Toggle(open, x), x) == open
    ensures open.Some? && open != Some(x) ==> Toggle(Toggle(open, x), x) == None
  {
  }

  /** The open/closed flags of items `0 .. n-1` when `open` is the open item. */
  function OpenFlags(n: nat, open: Option<nat>): (r: seq<bool>)
    ensures |r| == n
    ensures forall i | 0 <= i < n :: r[i] <==> open == Some(i)
    ensures Seqs.CountTrue(r) <= 1
    ensures Seqs.CountTrue(r) == 1 <==> open.Some? && open.value < n
  {
    var k := if open.Some? then open.value as int else -1;
    Seqs.OneHotCount(n, k);
    Seqs.OneHot(n, k)
  }
}
