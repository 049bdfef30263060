/** The five-star rating widget (ai_petition/src/components/ui/StarRatings.tsx):
    a `rating` prop, an optional `setRating` callback, a read-only flag and an
    ephemeral hover position. */
module StarRatings {

  /** The star positions, left to right. */
  const Positions: seq<int> := [1, 2, 3, 4, 5]

  /** Star `index` is drawn filled: the hover position reaches it, or nothing
      is hovered (`!hoverRating`) and the rating reaches it. */
  predicate IsLit(index: int, rating: int, hover: int) {
    hover >= index || (hover == 0 && rating >= index)
  }

  /** The value the stars display: the hover position while hovering, the
      rating otherwise. */
  function Shown(rating: int, hover: int): int {
    if hover != 0 then hover else rating
  }

  /** The fill of the five stars, left to right. */
  function LitStars(rating: int, hover: int): (lit: seq<bool>)
    ensures |lit| == |Positions|
    ensures forall i :: 0 <= i < |lit| ==> (lit[i] <==> Positions[i] <= Shown(rating, hover))
  {
    [IsLit(1, rating, hover), IsLit(2, rating, hover), IsLit(3, rating, hover),
     IsLit(4, rating, hover), IsLit(5, rating, hover)]
  }

  /** The lit stars form a prefix: a lit star has every star to its left lit. */
  lemma LitIsPrefix(rating: int, hover: int, i: int, j: int)
    requires 0 <= j <= i < |Positions|
    ensures LitStars(rating, hover)[i] ==> LitStars(rating, hover)[j]
  {
  }

  /** How many of the first `n` positions are lit. */
  function CountLit(n: nat, rating: int, hover: int): nat
  {
    if n == 0 then 0 else CountLit(n - 1, rating, hover) + (if IsLit(n, rating, hover) then 1 else 0)
  }

  function Clamp(x: int, lo: int, hi: int): int
    requires lo <= hi
  {
    if x < lo then lo else if x > hi then hi else x
  }

  /** Exactly the shown value, clamped to 0..n, of the first n stars are lit. */
  lemma {:induction false} CountLitIsShown(n: nat, rating: int, hover: int)
    ensures CountLit(n, rating, hover) == Clamp(Shown(rating, hover), 0, n)
  {
    if n > 0 {
      CountLitIsShown(n - 1, rating, hover);
    }
  }

  /** The widget. `setRatingCalls` records the calls of the parent's
      `setRating`; `hasSetter` says whether the parent passed one. */
  class StarRating {
    var rating: int
    const readOnly: bool
    const hasSetter: bool
    var hoverRating: int
    var setRatingCalls: seq<int>

    /** The hover position is 0 or a star, and stays 0 in read-only mode. */
    predicate Valid()
      reads this
    {
      0 <= hoverRating <= |Positions| && (readOnly ==> hoverRating == 0)
    }

    /** `useState(0)` for the hover position. */
    constructor(rating: int, readOnly: bool, hasSetter: bool)
      ensures Valid()
      ensures this.rating == rating && this.readOnly == readOnly && this.hasSetter == hasSetter
      ensures hoverRating == 0 && setRatingCalls == []
    {
      this.rating := rating;
      this.readOnly := readOnly;
      this.hasSetter := hasSetter;
      hoverRating := 0;
      setRatingCalls := [];
    }

    /** Whether star `index` is drawn filled. */
    function Lit(index: int): bool
      reads this
    {
      IsLit(index, rating, hoverRating)
    }

    /** `handleClick(index)`: calls `setRating(index)` only for an editable
        widget that has a setter. */
    method HandleClick(index: int)
      requires index in Positions
      modifies this
      ensures setRatingCalls == old(setRatingCalls) + (if !readOnly && hasSetter then [index] else [])
      ensures hoverRating == old(hoverRating) && rating == old(rating)
    {
      if !readOnly && hasSetter {
        setRatingCalls := setRatingCalls + [index];
      }
    }

    /** `handleMouseEnter(index)`. */
    method HandleMouseEnter(index: int)
      requires Valid() && index in Positions
      modifies this
      ensures Valid()
      ensures hoverRating == (if readOnly then old(hoverRating) else index)
      ensures rating == old(rating) && setRatingCalls == old(setRatingCalls)
    {
      if !readOnly {
        hoverRating := index;
      }
    }

    /** `handleMouseLeave()`. */
    method HandleMouseLeave()
      requires Valid()
      modifies this
      ensures Valid()
      ensures hoverRating == (if readOnly then old(hoverRating) else 0)
      ensures rating == old(rating) && setRatingCalls == old(setRatingCalls)
    {
      if !readOnly {
        hoverRating := 0;
      }
    }

    /** A new `rating` prop from the parent. */
    method ReceiveRating(r: int)
      requires Valid()
      modifies this
      ensures Valid() && rating == r
      ensures hoverRating == old(hoverRating) && setRatingCalls == old(setRatingCalls)
    {
      rating := r;
    }

    /** In read-only mode the lit stars are exactly those up to the rating. */
    lemma ReadOnlyShowsRating(index: int)
      requires Valid() && readOnly && index in Positions
      ensures Lit(index) <==> index <= rating
    {
    }
  }
}
