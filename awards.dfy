/** The awards carousel: previous/next buttons, a five-second auto-advance and one dot per awardee. */
module Awards {
  import Carousel
  import Constants

  class AwardsCarousel {
    var activeIndex: nat
    /** The number of awardees. */
    const count: nat

    /** The shown slide is one of the awardees. */
    predicate Valid()
      reads this
    {
      0 < count && activeIndex < count
    }

    constructor()
      ensures Valid() && activeIndex == 0 && count == |Constants.AWARDEES|
    {
      activeIndex := 0;
      count := |Constants.AWARDEES|;
    }

    /** `nextSlide`, from the next button or the timer. */
    method NextSlide()
      requires Valid()
      modifies this
      ensures Valid() && activeIndex == Carousel.Next(old(activeIndex), count)
    {
      activeIndex := (activeIndex + 1) % count;
    }

    /** `prevSlide`, from the previous button. */
    method PrevSlide()
      requires Valid()
      modifies this
      ensures Valid() && activeIndex == Carousel.Prev(old(activeIndex), count)
    {
      activeIndex := (activeIndex - 1 + count) % count;
    }

    /** A dot was pressed: its slide is shown. */
    method GoTo(idx: nat)
      requires Valid() && idx < count
      modifies this
      ensures Valid() && activeIndex == idx
    {
      activeIndex := idx;
    }
  }

  /** Next then previous, or previous then next, shows the slide it started from. */
  method NextThenPrev(c: AwardsCarousel)
    requires c.Valid()
    modifies c
    ensures c.Valid() && c.activeIndex == old(c.activeIndex)
  {
    c.NextSlide();
    c.PrevSlide();
    Carousel.PrevNext(old(c.activeIndex), c.count);
  }
}
