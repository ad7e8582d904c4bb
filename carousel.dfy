/** The testimonials carousel (components/TestimonialsCarousel.tsx): five
    testimonials shown one at a time, moved by next and previous buttons,
    by one dot per testimonial and by a timer, with a direction kept for the
    slide animation. */
module Carousel {

  datatype Testimonial = Testimonial(id: int, nameKey: string, roleKey: string, textKey: string, rating: int)

  const Testimonials: seq<Testimonial> := [
    Testimonial(1, "testimonials.testimonial1Name", "testimonials.testimonial1Role", "testimonials.testimonial1Text", 5),
    Testimonial(2, "testimonials.testimonial2Name", "testimonials.testimonial2Role", "testimonials.testimonial2Text", 5),
    Testimonial(3, "testimonials.testimonial3Name", "testimonials.testimonial3Role", "testimonials.testimonial3Text", 5),
    Testimonial(4, "testimonials.testimonial4Name", "testimonials.testimonial4Role", "testimonials.testimonial4Text", 4),
    Testimonial(5, "testimonials.testimonial5Name", "testimonials.testimonial5Role", "testimonials.testimonial5Text", 5)
  ]

  const Count: nat := 5

  /** Five testimonials, each rated between 1 and 5 stars. */
  lemma TestimonialsWellFormed()
    ensures |Testimonials| == Count
    ensures forall i :: 0 <= i < Count ==> 1 <= Testimonials[i].rating <= 5
  {
  }

  // ----------------------------------------------------------- index moves

  /** `(prev + 1) % testimonials.length`. */
  function NextIndex(i: int): (r: int)
    requires 0 <= i < Count
    ensures 0 <= r < Count
    ensures r == if i == Count - 1 then 0 else i + 1
  {
    (i + 1) % Count
  }

  /** `(prev - 1 + testimonials.length) % testimonials.length`: the operand
      is never negative, so JavaScript's `%` and Dafny's agree. */
  function PrevIndex(i: int): (r: int)
    requires 0 <= i < Count
    ensures 0 <= r < Count
    ensures r == if i == 0 then Count - 1 else i - 1
  {
    (i - 1 + Count) % Count
  }

  /** Previous undoes next, and next undoes previous. */
  lemma PrevUndoesNext(i: int)
    requires 0 <= i < Count
    ensures PrevIndex(NextIndex(i)) == i
    ensures NextIndex(PrevIndex(i)) == i
  {
  }

  /** `k` moves forward. */
  function Forward(k: nat, i: int): (r: int)
    requires 0 <= i < Count
    ensures 0 <= r < Count
    decreases k
  {
    if k == 0 then i else NextIndex(Forward(k - 1, i))
  }

  /** `k` moves forward land on `(i + k) mod 5`; five of them come back to
      where they started. */
  lemma {:induction false} ForwardIsModular(k: nat, i: int)
    requires 0 <= i < Count
    ensures Forward(k, i) == (i + k) % Count
    decreases k
  {
    if k > 0 {
      ForwardIsModular(k - 1, i);
    }
  }

  lemma FiveNextsComeBack(i: int)
    requires 0 <= i < Count
    ensures Forward(Count, i) == i
  {
    ForwardIsModular(Count, i);
  }

  // ------------------------------------------------------------------ stars

  /** `[...Array(5)].map((_, i) => i < rating)`: which stars are filled. */
  function Stars(rating: int): (r: seq<bool>)
    ensures |r| == 5
    ensures forall i :: 0 <= i < 5 ==> (r[i] <==> i < rating)
  {
    seq(5, i => i < rating)
  }

  function CountFilled(stars: seq<bool>): (n: nat)
    ensures n <= |stars|
    decreases |stars|
  {
    if |stars| == 0 then 0 else (if stars[0] then 1 else 0) + CountFilled(stars[1..])
  }

  /** A rating between 0 and 5 fills exactly that many stars, filled ones
      first. */
  lemma FilledStarsMatchRating(rating: int)
    requires 0 <= rating <= 5
    ensures CountFilled(Stars(rating)) == rating
  {
    FilledPrefix(Stars(rating), rating);
  }

  lemma {:induction false} FilledPrefix(stars: seq<bool>, k: int)
    requires 0 <= k <= |stars|
    requires forall i :: 0 <= i < |stars| ==> (stars[i] <==> i < k)
    ensures CountFilled(stars) == k
    decreases |stars|
  {
    if |stars| > 0 {
      FilledPrefix(stars[1..], if k > 0 then k - 1 else 0);
    }
  }

  // --------------------------------------------------------------- carousel

  class Carousel {
    var currentIndex: int
    var direction: int

    /** The index names a testimonial, and the direction is a step of the
        slide animation (0 before any move). */
    predicate Valid()
      reads this
    {
      0 <= currentIndex < Count && -1 <= direction <= 1
    }

    constructor()
      ensures Valid() && currentIndex == 0 && direction == 0
    {
      currentIndex := 0;
      direction := 0;
    }

    /** The testimonial on screen. */
    function Current(): Testimonial
      requires Valid()
      reads this
    {
      Testimonials[currentIndex]
    }

    /** `handleNext`, also run by the five-second timer. */
    method Next()
      requires Valid()
      modifies this
      ensures Valid() && direction == 1 && currentIndex == NextIndex(old(currentIndex))
    {
      direction := 1;
      currentIndex := (currentIndex + 1) % Count;
    }

    /** `handlePrev`. */
    method Prev()
      requires Valid()
      modifies this
      ensures Valid() && direction == -1 && currentIndex == PrevIndex(old(currentIndex))
    {
      direction := -1;
      currentIndex := (currentIndex - 1 + Count) % Count;
    }

    /** Dot `idx`: jump there, sliding forward only when it lies ahead (the
        current dot counts as backwards). */
    method Dot(idx: int)
      requires Valid() && 0 <= idx < Count
      modifies this
      ensures Valid() && currentIndex == idx
      ensures direction == (if idx > old(currentIndex) then 1 else -1)
    {
      direction := if idx > currentIndex then 1 else -1;
      currentIndex := idx;
    }
  }
}
