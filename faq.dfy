/** The FAQ accordion: at most one answer is open, the first one to begin with. */
module Faq {
  import opened Wrappers
  import Seqs
  import Selection
  import Constants

  class Accordion {
    var openIndex: Option<nat>
    /** The number of questions. */
    const count: nat

    constructor()
      ensures openIndex == Some(0) && count == |Constants.FAQS|
    {
      openIndex := Some(0);
      count := |Constants.FAQS|;
    }

    /**
     * Question `idx` was pressed: it closes when it was the open one, and
     * otherwise opens while the one open before closes.
     */
    method Click(idx: nat)
      modifies this
      ensures openIndex == Selection.Toggle(old(openIndex), idx)
      ensures old(openIndex) == Some(idx) ==> openIndex == None
      ensures old(openIndex) != Some(idx) ==> openIndex == Some(idx)
    {
      openIndex := if openIndex == Some(idx) then None else Some(idx);
    }

    /** The rendered answers: at most one is open, namely the one at `openIndex`. */
    function Expanded(): (r: seq<bool>)
      reads this
      ensures |r| == count && Seqs.CountTrue(r) <= 1
      ensures forall i | 0 <= i < count :: r[i] <==> openIndex == Some(i)
    {
      Selection.OpenFlags(count, openIndex)
    }
  }
}
