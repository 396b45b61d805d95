/** The three-slide promotional carousel of
    NEOMARCHE/src/components/auth/AuthLayout.jsx: `nextSlide` and
    `prevSlide` are the state updaters, the dots set the slide directly,
    and a five-second interval keeps calling `nextSlide`. */
module Carousel {
  const SlideCount := 3

  predicate IsSlide(s: int) {
    0 <= s < SlideCount
  }

  /** `prev === 2 ? 0 : prev + 1` */
  function Next(s: int): (r: int)
    ensures IsSlide(s) ==> IsSlide(r)
    ensures IsSlide(s) ==> r == (s + 1) % SlideCount
  {
    if s == 2 then 0 else s + 1
  }

  /** `prev === 0 ? 2 : prev - 1` */
  function Prev(s: int): (r: int)
    ensures IsSlide(s) ==> IsSlide(r)
    ensures IsSlide(s) ==> r == (s + SlideCount - 1) % SlideCount
  {
    if s == 0 then 2 else s - 1
  }

  /** On the three slides the two updaters undo each other. */
  lemma NextPrevInverse(s: int)
    requires IsSlide(s)
    ensures Prev(Next(s)) == s
    ensures Next(Prev(s)) == s
  {
  }

  /** The slide shown after the interval has fired `n` times. */
  function Advance(s: int, n: nat): int
  {
    if n == 0 then s else Next(Advance(s, n - 1))
  }

  /** After `n` firings of the interval the slide is `(s + n) mod 3`. */
  lemma {:induction false} AdvanceIsModular(s: int, n: nat)
    requires IsSlide(s)
    ensures IsSlide(Advance(s, n))
    ensures Advance(s, n) == (s + n) % SlideCount
  {
    if n > 0 {
      AdvanceIsModular(s, n - 1);
    }
  }

  /** Three consecutive `nextSlide` steps return to the starting slide. */
  lemma ThreeStepsCycle(s: int)
    requires IsSlide(s)
    ensures Advance(s, SlideCount) == s
  {
    AdvanceIsModular(s, SlideCount);
  }

  /** `AuthLayout`'s `activeSlide` state and the handlers that change it. */
  class AuthLayout {
    var activeSlide: int

    ghost predicate Valid()
      reads this
    {
      IsSlide(activeSlide)
    }

    constructor ()
      ensures Valid() && activeSlide == 0
    {
      activeSlide := 0;
    }

    /** The interval tick, the only caller of `nextSlide`. */
    method NextSlide()
      requires Valid()
      modifies this
      ensures Valid()
      ensures activeSlide == Next(old(activeSlide))
    {
      activeSlide := Next(activeSlide);
    }

    /** The `prevSlide` updater as defined; no control of the layout calls it. */
    method PrevSlide()
      requires Valid()
      modifies this
      ensures Valid()
      ensures activeSlide == Prev(old(activeSlide))
    {
      activeSlide := Prev(activeSlide);
    }

    /** A dot click: `setActiveSlide(index)` for one of the three dots. */
    method SelectSlide(index: int)
      requires Valid() && IsSlide(index)
      modifies this
      ensures Valid()
      ensures activeSlide == index
    {
      activeSlide := index;
    }
  }
}
