/** The backend's `Movie` entity and its running average of user ratings
    (task4/backend/src/main/java/com/task4/model/Movie.java). Java `double` is modelled
    as `real`, so the average here is the exact one the code computes up to rounding. */
module MovieEntity {
  import opened Wrappers

  /** Sum of ratings, folded from the left (the order in which they were applied). */
  function Sum(rs: seq<real>): real {
    if |rs| == 0 then 0.0 else Sum(rs[..|rs| - 1]) + rs[|rs| - 1]
  }

  predicate AllWithin(rs: seq<real>, lo: real, hi: real) {
    forall k :: 0 <= k < |rs| ==> lo <= rs[k] <= hi
  }

  /** Appending a rating adds it to the sum. */
  lemma SumSnoc(rs: seq<real>, x: real)
    ensures Sum(rs + [x]) == Sum(rs) + x
  {
    assert (rs + [x])[..|rs|] == rs;
  }

  /** If every rating lies in [lo, hi], their sum lies in [lo * n, hi * n]. */
  lemma {:induction false} SumWithin(rs: seq<real>, lo: real, hi: real)
    requires AllWithin(rs, lo, hi)
    ensures lo * |rs| as real <= Sum(rs) <= hi * |rs| as real
  {
    if |rs| > 0 {
      var init := rs[..|rs| - 1];
      var last := rs[|rs| - 1];
      assert AllWithin(init, lo, hi) by {
        forall k | 0 <= k < |init| ensures lo <= init[k] <= hi {
          assert init[k] == rs[k];
        }
      }
      SumWithin(init, lo, hi);
      var m := |init| as real;
      var s := Sum(init);
      assert Sum(rs) == s + last;
      assert lo * m <= s <= hi * m;
      assert lo <= last <= hi;
      StepBound(lo, m, s, last);
      StepBound(hi, m, s, last);
      assert |rs| as real == m + 1.0;
    }
  }

  /** `x * (m + 1)` is `x * m + x`, so bounds on a sum and on one more term combine. */
  lemma StepBound(x: real, m: real, s: real, last: real)
    ensures x * (m + 1.0) == x * m + x
    ensures x * m <= s && x <= last ==> x * (m + 1.0) <= s + last
    ensures s <= x * m && last <= x ==> s + last <= x * (m + 1.0)
  {
  }

  /** The arithmetic mean of ratings that all lie in [lo, hi] lies in [lo, hi] too. */
  lemma MeanWithin(rs: seq<real>, lo: real, hi: real)
    requires |rs| >= 1 && AllWithin(rs, lo, hi)
    ensures lo <= Sum(rs) / |rs| as real <= hi
  {
    SumWithin(rs, lo, hi);
    LowerBoundOfQuotient(lo, Sum(rs), |rs| as real);
    UpperBoundOfQuotient(hi, Sum(rs), |rs| as real);
  }

  lemma LowerBoundOfQuotient(x: real, y: real, n: real)
    requires n > 0.0 && x * n <= y
    ensures x <= y / n
  {
    assert y / n - x == (y - x * n) / n;
  }

  lemma UpperBoundOfQuotient(x: real, y: real, n: real)
    requires n > 0.0 && y <= x * n
    ensures y / n <= x
  {
    assert x - y / n == (x * n - y) / n;
  }

  /** One step of the incremental mean keeps "average times count is the sum of the
      ratings seen": the first rating becomes the average whatever the old average was,
      later ones are folded in as (average * count + rating) / (count + 1). */
  lemma IncrementalMean(average: real, count: nat, sum: real, newRating: real, next: real)
    requires average * count as real == sum
    requires next == if count == 0 then newRating
                     else (average * count as real + newRating) / (count as real + 1.0)
    ensures next * (count + 1) as real == sum + newRating
  {
    var n := count as real + 1.0;
    assert (count + 1) as real == n;
    if count == 0 {
      assert sum == 0.0;
      assert next * n == next;
    } else {
      assert next == (sum + newRating) / n;
      assert next * n == sum + newRating;
    }
  }

  class Movie {
    var id: int
    var title: string
    /** `Set<String>` in the entity; its iteration order is this sequence's order. */
    var genres: seq<string>
    var releaseYear: Option<int>
    var averageRating: real
    var ratingCount: nat
    var posterUrl: string
    var description: Option<string>
    /** Every rating passed to `UpdateRating` since the count was 0, oldest first. */
    ghost var ratingsSeen: seq<real>

    /** The running-average invariant: the count is the number of ratings seen and the
        average times the count is their sum. */
    ghost predicate Valid()
      reads this
    {
      ratingCount == |ratingsSeen| && averageRating * ratingCount as real == Sum(ratingsSeen)
    }

    /** `new Movie()` (Lombok's no-argument constructor, which keeps the field defaults
        average 0.0 and count 0) followed by the generated setters for the other fields. */
    constructor (id: int, title: string, genres: seq<string>, releaseYear: Option<int>,
                 posterUrl: string, description: Option<string>)
      ensures this.id == id && this.title == title && this.genres == genres
      ensures this.releaseYear == releaseYear && this.posterUrl == posterUrl
      ensures this.description == description
      ensures averageRating == 0.0 && ratingCount == 0 && ratingsSeen == []
      ensures Valid()
    {
      this.id := id;
      this.title := title;
      this.genres := genres;
      this.releaseYear := releaseYear;
      this.posterUrl := posterUrl;
      this.description := description;
      averageRating := 0.0;
      ratingCount := 0;
      ratingsSeen := [];
    }

    /** `updateRating`: adds one rating to the running average. Only the average and
        the count change (the frame says so); the invariant is kept. */
    method UpdateRating(newRating: real)
      modifies this`averageRating, this`ratingCount, this`ratingsSeen
      ensures ratingCount == old(ratingCount) + 1
      ensures old(ratingCount) == 0 ==> averageRating == newRating
      ensures old(ratingCount) > 0 ==>
        averageRating == (old(averageRating) * old(ratingCount) as real + newRating)
                         / (old(ratingCount) as real + 1.0)
      ensures ratingsSeen == old(ratingsSeen) + [newRating]
      ensures old(Valid()) ==> Valid()
    {
      ghost var wasValid := Valid();
      var n := ratingCount;
      var next: real;
      if n == 0 {
        next := newRating;
      } else {
        next := ((averageRating * n as real) + newRating) / (n as real + 1.0);
      }
      ghost var seen := ratingsSeen;
      if wasValid {
        assert next * (n + 1) as real == Sum(seen + [newRating]) by {
          IncrementalMean(averageRating, n, Sum(seen), newRating, next);
          SumSnoc(seen, newRating);
        }
      }
      averageRating := next;
      ratingCount := n + 1;
      ratingsSeen := ratingsSeen + [newRating];
    }
  }

  /** Once a movie has been rated, its average is the arithmetic mean of the ratings. */
  lemma AverageIsMean(m: Movie)
    requires m.Valid() && m.ratingCount >= 1
    ensures m.averageRating == Sum(m.ratingsSeen) / m.ratingCount as real
  {
    var n := m.ratingCount as real;
    assert m.averageRating * n / n == m.averageRating;
  }

  /** If every rating a movie received lies in [lo, hi], so does its average. */
  lemma AverageWithin(m: Movie, lo: real, hi: real)
    requires m.Valid() && m.ratingCount >= 1 && AllWithin(m.ratingsSeen, lo, hi)
    ensures lo <= m.averageRating <= hi
  {
    AverageIsMean(m);
    MeanWithin(m.ratingsSeen, lo, hi);
  }
}
