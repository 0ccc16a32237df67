/**
  The landing page's hero carousel (src/components/HeroCarousel.tsx): three slides, a cyclic
  current index and an animation lock. Every accepted move takes the lock; the 700 ms timer that
  releases it and the 8 s auto-advance timer are the events `AnimationDone` and `Tick`.
 */
module HeroCarousel {

  /** The carousel shows three slides. */
  const SlideCount := 3

  /** `prev === n - 1 ? 0 : prev + 1`. */
  function NextIndex(i: int, n: nat): (r: int)
    requires n > 0
    ensures 0 <= i < n ==> 0 <= r < n
    ensures i == n - 1 ==> r == 0
    ensures i != n - 1 ==> r == i + 1
  {
    if i == n - 1 then 0 else i + 1
  }

  /** `prev === 0 ? n - 1 : prev - 1`. */
  function PrevIndex(i: int, n: nat): (r: int)
    requires n > 0
    ensures 0 <= i < n ==> 0 <= r < n
    ensures i == 0 ==> r == n - 1
    ensures i != 0 ==> r == i - 1
  {
    if i == 0 then n - 1 else i - 1
  }

  /** Next and previous undo each other on every index in range. */
  lemma NextPrevInverse(i: int, n: nat)
    requires 0 <= i < n
    ensures PrevIndex(NextIndex(i, n), n) == i
    ensures NextIndex(PrevIndex(i, n), n) == i
  {
  }

  class Carousel {
    var currentSlide: int
    var isAnimating: bool

    predicate Valid()
      reads this
    {
      0 <= currentSlide < SlideCount
    }

    /** The first slide, unlocked. */
    constructor()
      ensures currentSlide == 0 && !isAnimating && Valid()
    {
      currentSlide := 0;
      isAnimating := false;
    }

    /** `goToPrevSlide()`: ignored while animating; otherwise one slide back, cyclically, and locked. */
    method GoToPrevSlide()
      modifies this`currentSlide, this`isAnimating
      ensures old(isAnimating) ==> currentSlide == old(currentSlide) && isAnimating
      ensures !old(isAnimating) ==> currentSlide == PrevIndex(old(currentSlide), SlideCount) && isAnimating
      ensures old(Valid()) ==> Valid()
    {
      if isAnimating {
        return;
      }
      isAnimating := true;
      currentSlide := PrevIndex(currentSlide, SlideCount);
    }

    /** `goToNextSlide()`: ignored while animating; otherwise one slide on, cyclically, and locked. */
    method GoToNextSlide()
      modifies this`currentSlide, this`isAnimating
      ensures old(isAnimating) ==> currentSlide == old(currentSlide) && isAnimating
      ensures !old(isAnimating) ==> currentSlide == NextIndex(old(currentSlide), SlideCount) && isAnimating
      ensures old(Valid()) ==> Valid()
    {
      if isAnimating {
        return;
      }
      isAnimating := true;
      currentSlide := NextIndex(currentSlide, SlideCount);
    }

    /**
      `goToSlide(index)`: ignored while animating or when `index` is already current; otherwise
      that slide, locked. The indicator dots pass only indices of existing slides.
     */
    method GoToSlide(index: int)
      modifies this`currentSlide, this`isAnimating
      ensures old(isAnimating) || old(currentSlide) == index ==>
        currentSlide == old(currentSlide) && isAnimating == old(isAnimating)
      ensures !old(isAnimating) && old(currentSlide) != index ==> currentSlide == index && isAnimating
      ensures old(Valid()) && 0 <= index < SlideCount ==> Valid()
    {
      if isAnimating || currentSlide == index {
        return;
      }
      isAnimating := true;
      currentSlide := index;
    }

    /** The 700 ms timer after an accepted move: the lock is released. */
    method AnimationDone()
      modifies this`isAnimating
      ensures !isAnimating
    {
      isAnimating := false;
    }

    /** The 8 s auto-advance timer: a next move when unlocked, nothing otherwise. */
    method Tick()
      modifies this`currentSlide, this`isAnimating
      ensures old(isAnimating) ==> currentSlide == old(currentSlide) && isAnimating
      ensures !old(isAnimating) ==> currentSlide == NextIndex(old(currentSlide), SlideCount) && isAnimating
      ensures old(Valid()) ==> Valid()
    {
      if !isAnimating {
        GoToNextSlide();
      }
    }
  }
}
