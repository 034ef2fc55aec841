/** The testimonial carousel: a six-second auto-advance and one dot per testimonial. */
module Testimonials {
  import Carousel
  import Constants

  class TestimonialCarousel {
    var activeIndex: nat
    /** The number of testimonials. */
    const count: nat

    /** The shown testimonial is one of them. */
    predicate Valid()
      reads this
    {
      0 < count && activeIndex < count
    }

    constructor()
      ensures Valid() && activeIndex == 0 && count == |Constants.TESTIMONIALS|
    {
      activeIndex := 0;
      count := |Constants.TESTIMONIALS|;
    }

    /** The interval fires: the next testimonial, wrapping after the last. */
    method Tick()
      requires Valid()
      modifies this
      ensures Valid() && activeIndex == Carousel.Next(old(activeIndex), count)
    {
      activeIndex := (activeIndex + 1) % count;
    }

    /** A dot was pressed: its testimonial is shown. */
    method GoTo(idx: nat)
      requires Valid() && idx < count
      modifies this
      ensures Valid() && activeIndex == idx
    {
      activeIndex := idx;
    }
  }
}
