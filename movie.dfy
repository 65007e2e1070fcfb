/**
 * A catalog movie: immutable metadata, identity by name, and three running
 * aggregates (likes, number of ratings, sum of ratings) that are updated in
 * place when users like or rate it.
 */
module Movies {

  /** Reduces an unbounded integer to Java's 32-bit two's-complement `int` range. */
  function Wrap32(x: int): (r: int)
    ensures -0x8000_0000 <= r < 0x8000_0000
    ensures (x - r) % 0x1_0000_0000 == 0
    ensures -0x8000_0000 <= x < 0x8000_0000 ==> r == x
  {
    (x + 0x8000_0000) % 0x1_0000_0000 - 0x8000_0000
  }

  /**
   * `String.hashCode`: h = 31 * h + c over the characters, in `int` arithmetic
   * (each step wraps around at 32 bits).
   */
  function StringHash(s: string): (h: int)
    ensures -0x8000_0000 <= h < 0x8000_0000
  {
    if s == [] then 0 else Wrap32(31 * StringHash(s[..|s| - 1]) + s[|s| - 1] as int)
  }

  /**
   * The rating shown for a movie: the mean of its ratings, or 0 while it has
   * none. Exact rational arithmetic stands in for Java's `double` division.
   */
  function RatingOf(ratingSum: int, numRatings: int): (r: real)
    ensures numRatings > 0 ==> r * numRatings as real == ratingSum as real
    ensures numRatings <= 0 ==> r == 0.0
  {
    if numRatings > 0 then ratingSum as real / numRatings as real else 0.0
  }

  class Movie {
    const name: string
    const year: string
    const duration: int
    const genres: seq<string>
    const actors: seq<string>
    const countriesBanned: seq<string>
    var numLikes: int
    var numRatings: int
    var ratingSum: int

    /** The deserialising constructor: metadata given, every aggregate starts at 0. */
    constructor (name: string, year: string, duration: int, genres: seq<string>,
                 actors: seq<string>, countriesBanned: seq<string>)
      ensures this.name == name && this.year == year && this.duration == duration
      ensures this.genres == genres && this.actors == actors
      ensures this.countriesBanned == countriesBanned
      ensures numLikes == 0 && numRatings == 0 && ratingSum == 0
    {
      this.name := name;
      this.year := year;
      this.duration := duration;
      this.genres := genres;
      this.actors := actors;
      this.countriesBanned := countriesBanned;
      numLikes, numRatings, ratingSum := 0, 0, 0;
    }

    /** The copy constructor: a new object with the same metadata and the same aggregates. */
    constructor Copy(movie: Movie)
      ensures name == movie.name && year == movie.year && duration == movie.duration
      ensures genres == movie.genres && actors == movie.actors
      ensures countriesBanned == movie.countriesBanned
      ensures numLikes == movie.numLikes && numRatings == movie.numRatings
      ensures ratingSum == movie.ratingSum
      ensures Equals(movie) && Rating() == movie.Rating()
    {
      name := movie.name;
      year := movie.year;
      duration := movie.duration;
      genres := movie.genres;
      actors := movie.actors;
      countriesBanned := movie.countriesBanned;
      numLikes := movie.numLikes;
      numRatings := movie.numRatings;
      ratingSum := movie.ratingSum;
    }

    /** `equals` against another movie: movies are the same movie when their names are. */
    predicate Equals(other: Movie): (b: bool)
      ensures b ==> HashCode() == other.HashCode()
      ensures b <==> EqualsName(other.name)
    {
      other.name == name
    }

    /** `equals` against a String: a movie equals exactly its own name. */
    predicate EqualsName(s: string): (b: bool)
      ensures b ==> HashCode() == StringHash(s)
    {
      s == name
    }

    /** `hashCode`: the hash of the name, so equal movies hash alike. */
    function HashCode(): (h: int)
      ensures -0x8000_0000 <= h < 0x8000_0000
    {
      StringHash(name)
    }

    /** `getRating`, recomputed from the aggregates on every call. */
    function Rating(): (r: real)
      reads this
      ensures numRatings > 0 ==> r * numRatings as real == ratingSum as real
      ensures numRatings <= 0 ==> r == 0.0
    {
      RatingOf(ratingSum, numRatings)
    }

    /** A like: one more like (in `int` arithmetic), nothing else changes. */
    method GetLiked()
      modifies this
      ensures numLikes == Wrap32(old(numLikes) + 1)
      ensures -0x8000_0000 <= old(numLikes) < 0x7fff_ffff ==> numLikes == old(numLikes) + 1
      ensures numRatings == old(numRatings) && ratingSum == old(ratingSum)
    {
      numLikes := Wrap32(numLikes + 1);
    }

    /** A first rating by some user: added to the sum and counted. */
    method Rate(rating: int)
      modifies this
      ensures ratingSum == Wrap32(old(ratingSum) + rating) && numRatings == Wrap32(old(numRatings) + 1)
      ensures -0x8000_0000 <= old(ratingSum) + rating < 0x8000_0000 ==> ratingSum == old(ratingSum) + rating
      ensures -0x8000_0000 <= old(numRatings) < 0x7fff_ffff ==> numRatings == old(numRatings) + 1
      ensures numLikes == old(numLikes)
    {
      ratingSum := Wrap32(ratingSum + rating);
      numRatings := Wrap32(numRatings + 1);
    }

    /** A user replacing an earlier rating: the sum moves by the difference, the count stays. */
    method RateAgain(rating: int, prevRating: int)
      modifies this
      ensures ratingSum == Wrap32(old(ratingSum) + Wrap32(rating - prevRating))
      ensures -0x8000_0000 <= rating - prevRating < 0x8000_0000 &&
              -0x8000_0000 <= old(ratingSum) + (rating - prevRating) < 0x8000_0000 ==>
              ratingSum == old(ratingSum) + (rating - prevRating)
      ensures numRatings == old(numRatings) && numLikes == old(numLikes)
    {
      ratingSum := Wrap32(ratingSum + Wrap32(rating - prevRating));
    }
  }

  /** Equality by name is an equivalence, and hashCode agrees with it. */
  lemma EqualsIsConsistent(a: Movie, b: Movie, c: Movie)
    ensures a.Equals(a)
    ensures a.Equals(b) <==> b.Equals(a)
    ensures a.Equals(b) && b.Equals(c) ==> a.Equals(c)
    ensures a.Equals(b) ==> a.HashCode() == b.HashCode()
    ensures a.Equals(b) <==> a.EqualsName(b.name)
  {
  }

  /** The rating after one more rating r is the running mean updated with r. */
  lemma RateUpdatesMean(ratingSum: int, numRatings: nat, rating: int)
    requires numRatings == 0 ==> ratingSum == 0
    ensures RatingOf(ratingSum + rating, numRatings + 1)
         == (RatingOf(ratingSum, numRatings) * numRatings as real + rating as real)
            / (numRatings + 1) as real
  {
    if numRatings == 0 {
      assert RatingOf(ratingSum, numRatings) * numRatings as real == 0.0;
    } else {
      assert RatingOf(ratingSum, numRatings) * numRatings as real == ratingSum as real;
    }
  }

  /** Rating again moves the mean by the difference spread over all the ratings. */
  lemma RateAgainShiftsMean(ratingSum: int, numRatings: int, rating: int, prevRating: int)
    requires numRatings > 0
    ensures RatingOf(ratingSum + (rating - prevRating), numRatings)
         == RatingOf(ratingSum, numRatings) + (rating - prevRating) as real / numRatings as real
  {
  }

  /** The mean of ratings that all lie in [lo, hi] lies in [lo, hi]. */
  lemma RatingWithinBounds(ratingSum: int, numRatings: int, lo: int, hi: int)
    requires numRatings > 0
    requires lo * numRatings <= ratingSum <= hi * numRatings
    ensures lo as real <= RatingOf(ratingSum, numRatings) <= hi as real
  {
    var n := numRatings as real;
    var r := RatingOf(ratingSum, numRatings);
    assert r * n == ratingSum as real;
    assert (lo * numRatings) as real == lo as real * n;
    assert (hi * numRatings) as real == hi as real * n;
  }

  /** Two fresh ratings of 5 and 3 give a rating of 4. */
  method RateFiveThenThree(m: Movie)
    requires m.numRatings == 0 && m.ratingSum == 0
    modifies m
    ensures m.Rating() == 4.0 && m.numRatings == 2
  {
    m.Rate(5);
    m.Rate(3);
  }

  /** Replacing a single rating of 5 by 3 leaves one rating, now 3. */
  method RateFiveThenReplaceByThree(m: Movie)
    requires m.numRatings == 0 && m.ratingSum == 0
    modifies m
    ensures m.Rating() == 3.0 && m.numRatings == 1
  {
    m.Rate(5);
    m.RateAgain(3, 5);
  }
}
