/** The five-star rating row drawn by the navigation's featured artwork and
    by the artwork card: star `i` (from 0) is filled when `i < rating`. */
module Stars {

  const StarCount: nat := 5

  /** `renderStars(rating)`: for each of the five stars, whether it is filled. */
  function RenderStars(rating: real): (filled: seq<bool>)
    ensures |filled| == StarCount
    ensures forall i :: 0 <= i < StarCount ==> (filled[i] <==> i as real < rating)
  {
    seq(StarCount, i => i as real < rating)
  }

  /** The number of filled stars. */
  function CountFilled(stars: seq<bool>): nat
  {
    if stars == [] then 0 else CountFilled(stars[..|stars| - 1]) + (if stars[|stars| - 1] then 1 else 0)
  }

  /** The least integer not below `x`. */
  function Ceiling(x: real): (c: int)
    ensures x <= c as real < x + 1.0
  {
    -((-x).Floor)
  }

  /** `c` cut into the range 0..n. */
  function Clamp(c: int, n: nat): (r: nat)
    ensures r <= n
    ensures 0 <= c <= n ==> r == c
  {
    if c < 0 then 0 else if c > n then n else c
  }

  /** A row whose stars before position `c` are the filled ones counts `c`
      filled stars, cut to the row's length. */
  lemma {:induction false} CountPrefixFilled(stars: seq<bool>, c: int)
    requires forall i :: 0 <= i < |stars| ==> (stars[i] <==> i < c)
    ensures CountFilled(stars) == Clamp(c, |stars|)
    decreases |stars|
  {
    if stars != [] {
      CountPrefixFilled(stars[..|stars| - 1], c);
    }
  }

  /** A rating fills as many stars as its ceiling, between none and five:
      4.5 fills five, a negative rating none, a rating above five all. */
  lemma FilledStars(rating: real)
    ensures CountFilled(RenderStars(rating)) == Clamp(Ceiling(rating), StarCount)
  {
    var stars := RenderStars(rating);
    var c := Ceiling(rating);
    forall i | 0 <= i < |stars| ensures stars[i] <==> i < c {
      assert stars[i] <==> i as real < rating;
    }
    CountPrefixFilled(stars, c);
  }

  /** A whole-number rating between 0 and 5 fills exactly that many stars. */
  lemma WholeRatingFillsExactly(r: int)
    requires 0 <= r <= StarCount
    ensures CountFilled(RenderStars(r as real)) == r
  {
    FilledStars(r as real);
    assert Ceiling(r as real) == r;
  }
}
