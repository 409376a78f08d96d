/**
 * The landing-page carousel over the four testimonials: the index
 * arithmetic of the next and previous buttons, the dots that jump to an
 * index, the five-star rating row, and the autoplay flag that hovering
 * switches off.  The five-second timer is an explicit `Tick` step.
 */
module Testimonials {

  /** The number of testimonials (`testimonials.length`). */
  const Count: nat := 4

  /** The ratings of the four testimonials, in order. */
  const Ratings: seq<nat> := [5, 5, 4, 5]

  const StarCount: nat := 5

  /** `nextTestimonial`: one forward, wrapping from the last to the first. */
  function Next(i: nat): (r: nat)
    requires i < Count
    ensures r < Count
    ensures i + 1 < Count ==> r == i + 1
    ensures i == Count - 1 ==> r == 0
  {
    (i + 1) % Count
  }

  /** `prevTestimonial`: one back, wrapping from the first to the last. */
  function Prev(i: nat): (r: nat)
    requires i < Count
    ensures r < Count
    ensures i > 0 ==> r == i - 1
    ensures i == 0 ==> r == Count - 1
  {
    if i == 0 then Count - 1 else i - 1
  }

  /** Back undoes forward and forward undoes back. */
  lemma PrevNextInverse(i: nat)
    requires i < Count
    ensures Prev(Next(i)) == i
    ensures Next(Prev(i)) == i
  {
  }

  /** `n` presses of the next button. */
  function NextTimes(i: nat, n: nat): (r: nat)
    requires i < Count
    ensures r < Count
  {
    if n == 0 then i else Next(NextTimes(i, n - 1))
  }

  /** `n` presses land on `(i + n) mod 4`. */
  lemma {:induction false} NextTimesIsModular(i: nat, n: nat)
    requires i < Count
    ensures NextTimes(i, n) == (i + n) % Count
  {
    if n > 0 {
      NextTimesIsModular(i, n - 1);
    }
  }

  /** Four presses come back to the start. */
  lemma NextFourTimes(i: nat)
    requires i < Count
    ensures NextTimes(i, Count) == i
  {
    NextTimesIsModular(i, Count);
  }

  /** Star `k` of five is filled for a rating of `rating`. */
  function StarsFilled(rating: nat): (r: seq<bool>)
    ensures |r| == StarCount
    ensures forall k :: 0 <= k < StarCount ==> (r[k] <==> k < rating)
  {
    seq(StarCount, k => k < rating)
  }

  /** Every testimonial shows at least four filled stars and the third exactly four. */
  lemma StarsOfTestimonials()
    ensures forall i :: 0 <= i < Count ==> |set k | 0 <= k < StarCount && StarsFilled(Ratings[i])[k]| >= 4
    ensures StarsFilled(Ratings[2]) == [true, true, true, true, false]
  {
    forall i | 0 <= i < Count
      ensures |set k | 0 <= k < StarCount && StarsFilled(Ratings[i])[k]| >= 4
    {
      var filled := set k | 0 <= k < StarCount && StarsFilled(Ratings[i])[k];
      assert {0, 1, 2, 3} <= filled;
      assert |{0, 1, 2, 3}| == 4;
      SubsetCard({0, 1, 2, 3}, filled);
    }
  }

  lemma SubsetCard(a: set<int>, b: set<int>)
    requires a <= b
    ensures |a| <= |b|
  {
    assert b == a + (b - a);
  }

  /** The carousel's state: the shown index and whether the timer runs. */
  class Carousel {
    var currentIndex: nat
    var autoplay: bool

    ghost predicate Valid()
      reads this
    {
      currentIndex < Count
    }

    constructor()
      ensures Valid()
      ensures currentIndex == 0 && autoplay
    {
      currentIndex, autoplay := 0, true;
    }

    method NextTestimonial()
      requires Valid()
      modifies this
      ensures Valid()
      ensures currentIndex == Next(old(currentIndex)) && autoplay == old(autoplay)
    {
      currentIndex := (currentIndex + 1) % Count;
    }

    method PrevTestimonial()
      requires Valid()
      modifies this
      ensures Valid()
      ensures currentIndex == Prev(old(currentIndex)) && autoplay == old(autoplay)
    {
      currentIndex := if currentIndex == 0 then Count - 1 else currentIndex - 1;
    }

    /** A click on dot `index`; the dots are the indices of the testimonials. */
    method DotClick(index: nat)
      requires index < Count
      modifies this
      ensures Valid()
      ensures currentIndex == index && autoplay == old(autoplay)
    {
      currentIndex := index;
    }

    /** The five-second interval fires; it runs only while autoplay is on. */
    method Tick()
      requires Valid()
      modifies this
      ensures Valid()
      ensures currentIndex == (if old(autoplay) then Next(old(currentIndex)) else old(currentIndex))
      ensures autoplay == old(autoplay)
    {
      if autoplay {
        NextTestimonial();
      }
    }

    method MouseEnter()
      modifies this
      ensures !autoplay && currentIndex == old(currentIndex)
    {
      autoplay := false;
    }

    method MouseLeave()
      modifies this
      ensures autoplay && currentIndex == old(currentIndex)
    {
      autoplay := true;
    }
  }
}
