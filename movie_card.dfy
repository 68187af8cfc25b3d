/** The movie card (src/components/MovieCard.tsx): the user's star rating, the hover flag,
    which stars are lit and when the similarity badge shows. */
module MovieCard {
  import opened Wrappers
  import opened Types

  /** The values of the five star buttons. */
  type Star = k: int | 1 <= k <= 5 witness 1

  /** `movie.userRating || 0`. */
  function InitialUserRating(m: Movie): (r: real)
    ensures m.userRating.Some? ==> r == m.userRating.value
    ensures m.userRating.None? ==> r == 0.0
  {
    if Truthy(m.userRating) then m.userRating.value else 0.0
  }

  /** Whether each of the stars 1..5 is highlighted: star s is lit when s <= userRating. */
  function LitStars(userRating: real): (r: seq<bool>)
    ensures |r| == 5
    ensures forall i :: 0 <= i < 5 ==> (r[i] <==> (i + 1) as real <= userRating)
  {
    seq(5, i => (i + 1) as real <= userRating)
  }

  function CountLit(bs: seq<bool>): nat {
    if |bs| == 0 then 0 else (if bs[0] then 1 else 0) + CountLit(bs[1..])
  }

  function Clamp(n: int, lo: int, hi: int): int {
    if n < lo then lo else if n > hi then hi else n
  }

  /** The lit stars are a prefix of the row and there are floor(userRating) of them,
      clamped to 0..5; so a rating k in 0..5 lights exactly k stars. */
  lemma LitStarsCount(userRating: real)
    ensures CountLit(LitStars(userRating)) == Clamp(userRating.Floor, 0, 5)
    ensures forall i, j :: 0 <= i < j < 5 && LitStars(userRating)[j] ==> LitStars(userRating)[i]
  {
    var r := LitStars(userRating);
    var f := userRating.Floor;
    assert forall i :: 0 <= i < 5 ==> (r[i] <==> i + 1 <= f);
    assert r == [1 <= f, 2 <= f, 3 <= f, 4 <= f, 5 <= f];
    assert r[1..] == [2 <= f, 3 <= f, 4 <= f, 5 <= f];
    assert r[2..] == [3 <= f, 4 <= f, 5 <= f];
    assert r[3..] == [4 <= f, 5 <= f];
    assert r[4..] == [5 <= f];
    assert CountLit(r[4..]) == (if 5 <= f then 1 else 0) by {
      assert r[4..][1..] == [];
    }
    assert CountLit(r[3..]) == (if 4 <= f then 1 else 0) + CountLit(r[4..]) by {
      assert r[3..][1..] == r[4..];
    }
    assert CountLit(r[2..]) == (if 3 <= f then 1 else 0) + CountLit(r[3..]) by {
      assert r[2..][1..] == r[3..];
    }
    assert CountLit(r[1..]) == (if 2 <= f then 1 else 0) + CountLit(r[2..]) by {
      assert r[1..][1..] == r[2..];
    }
  }

  /** `showSimilarityScore && movie.similarityScore`: the badge shows only when asked for
      and the score is present and non-zero. */
  function ShowsBadge(showSimilarityScore: bool, m: Movie): (b: bool)
    ensures b <==> showSimilarityScore && m.similarityScore.Some? && m.similarityScore.value != 0.0
  {
    showSimilarityScore && Truthy(m.similarityScore)
  }

  /** What the slot in the top-right corner of the poster renders. */
  datatype BadgeSlot = Empty | StrayText(text: string) | Badge(score: real)

  /** `{showSimilarityScore && movie.similarityScore && <badge/>}` as written: React renders
      nothing for `false` and `undefined`, but the number `0` is rendered as the text "0". */
  function BadgeSlotAsWritten(showSimilarityScore: bool, m: Movie): (r: BadgeSlot)
    ensures r.Badge? <==> ShowsBadge(showSimilarityScore, m)
    ensures r.StrayText? <==> showSimilarityScore && m.similarityScore == Some(0.0)
  {
    if !showSimilarityScore then Empty
    else match m.similarityScore
      case None => Empty
      case Some(v) => if v == 0.0 then StrayText("0") else Badge(v)
  }

  /** A shown card for a movie whose similarity score is zero puts a stray "0" on the poster. */
  lemma ZeroScoreShowsStrayZero(m: Movie)
    requires m.similarityScore == Some(0.0)
    ensures BadgeSlotAsWritten(true, m) == StrayText("0")
  {
  }

  /** The evidently intended slot: the badge exactly when `ShowsBadge`, and nothing else. */
  function BadgeSlotIntended(showSimilarityScore: bool, m: Movie): (r: BadgeSlot)
    ensures !r.StrayText?
    ensures r.Badge? <==> ShowsBadge(showSimilarityScore, m)
    ensures r.Badge? ==> m.similarityScore == Some(r.score)
  {
    if ShowsBadge(showSimilarityScore, m) then Badge(m.similarityScore.value) else Empty
  }

  /** The two agree on every card except a shown card whose score is zero. */
  lemma BadgeSlotsAgree(showSimilarityScore: bool, m: Movie)
    ensures BadgeSlotAsWritten(showSimilarityScore, m) == BadgeSlotIntended(showSimilarityScore, m)
            <==> !(showSimilarityScore && m.similarityScore == Some(0.0))
  {
  }

  class MovieCard {
    const movie: Movie
    const showSimilarityScore: bool
    var isHovered: bool
    var userRating: real
    /** The calls made to `onRate`, oldest first: (movie id, rating). */
    var rateCalls: seq<(int, int)>

    /** Every call to `onRate` was for this card's movie with a value from 1 to 5. */
    ghost predicate Valid()
      reads this
    {
      forall i :: 0 <= i < |rateCalls| ==> rateCalls[i].0 == movie.id && 1 <= rateCalls[i].1 <= 5
    }

    constructor (movie: Movie, showSimilarityScore: bool)
      ensures this.movie == movie && this.showSimilarityScore == showSimilarityScore
      ensures !isHovered && userRating == InitialUserRating(movie) && rateCalls == []
      ensures Valid()
    {
      this.movie := movie;
      this.showSimilarityScore := showSimilarityScore;
      isHovered := false;
      userRating := InitialUserRating(movie);
      rateCalls := [];
    }

    /** A click on star `star`: `handleRating(star)` records the rating and calls
        `onRate(movie.id, star)` once. */
    method ClickStar(star: Star)
      requires Valid()
      modifies this`userRating, this`rateCalls
      ensures userRating == star as real
      ensures rateCalls == old(rateCalls) + [(movie.id, star as int)]
      ensures Valid()
    {
      userRating := star as real;
      rateCalls := rateCalls + [(movie.id, star as int)];
    }

    method MouseEnter()
      modifies this`isHovered
      ensures isHovered
    {
      isHovered := true;
    }

    method MouseLeave()
      modifies this`isHovered
      ensures !isHovered
    {
      isHovered := false;
    }
  }
}
