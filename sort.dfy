/**
 * The sort step of a filter request. It reorders a movie list in place with a
 * stable sort keyed on duration and/or rating whose direction is chosen by the
 * direction strings of the request.
 *
 * Java's comparators are modelled by the key they induce. `comparing(f)` orders
 * by f, `.reversed()` orders by -f (the two agree on every pair, ties included),
 * and a tie-breaker that takes effect supplies a second key compared
 * lexicographically after the first. `List.sort` is stable, so the specification
 * of a sort is `SortSeq`. That is the stable insertion sort, proved below to
 * return a sorted permutation that keeps tied movies in input order.
 */
module Sorting {
  import opened Wrappers
  import opened Movies

  /** A sort direction; only the exact string "descending" selects the reversed comparator. */
  datatype Order = Ascending | Descending

  function OrderOf(direction: string): Order {
    if direction == "descending" then Descending else Ascending
  }

  /** The two movie attributes a sort can be keyed on: `getDuration` and `getRating`. */
  datatype Field = Duration | Rating

  /**
   * A comparator: `comparing(field)`, reversed when `order` is Descending, and
   * optionally followed by a tie-breaking comparator that takes effect.
   */
  datatype Comparator = Comparator(field: Field, order: Order, tieBreak: Option<(Field, Order)>)

  /** The sort criteria of a request: each direction string may be absent (null). */
  datatype Sort = Sort(rating: Option<string>, duration: Option<string>)

  function FieldValue(m: Movie, f: Field): real
    reads m
  {
    match f
    case Duration => m.duration as real
    case Rating => m.Rating()
  }

  function Directed(v: real, o: Order): real {
    if o == Descending then -v else v
  }

  /** The key a comparator sorts by, compared lexicographically. */
  datatype Key = Key(primary: real, secondary: real)

  function KeyOf(m: Movie, c: Comparator): Key
    reads m
  {
    var secondary := match c.tieBreak
      case None => 0.0
      case Some(t) => Directed(FieldValue(m, t.0), t.1);
    Key(Directed(FieldValue(m, c.field), c.order), secondary)
  }

  predicate KeyLe(k: Key, l: Key) {
    k.primary < l.primary || (k.primary == l.primary && k.secondary <= l.secondary)
  }

  /** `compare(x, y) <= 0`: x may stay before y. */
  predicate InOrder(x: Movie, y: Movie, c: Comparator)
    reads x, y
  {
    KeyLe(KeyOf(x, c), KeyOf(y, c))
  }

  ghost predicate SortedBy(s: seq<Movie>, c: Comparator)
    reads s
  {
    forall i, j :: 0 <= i < j < |s| ==> InOrder(s[i], s[j], c)
  }

  /**
   * Inserts x after the sorted list t, moving it left past every movie that
   * compares strictly greater; a movie that compares equal stays in front of x.
   */
  function Insert(t: seq<Movie>, x: Movie, c: Comparator): (r: seq<Movie>)
    reads set m | m in t + [x]
    ensures forall m :: m in r ==> m in t || m == x
    ensures |r| == |t| + 1 && x in r
    decreases |t|
  {
    if t == [] || InOrder(t[|t| - 1], x, c) then t + [x]
    else
      assert t == t[..|t| - 1] + [t[|t| - 1]];
      Insert(t[..|t| - 1], x, c) + [t[|t| - 1]]
  }

  /** The stable sort that `List.sort(comparator)` performs. */
  function SortSeq(s: seq<Movie>, c: Comparator): (r: seq<Movie>)
    reads set m | m in s
    ensures forall m :: m in r ==> m in s
    ensures |r| == |s|
  {
    if s == [] then []
    else
      var front := SortSeq(s[..|s| - 1], c);
      assert forall m :: m in s[..|s| - 1] ==> m in s;
      Insert(front, s[|s| - 1], c)
  }

  /** The movies of s whose key under c is k, in their order in s. */
  function Tied(s: seq<Movie>, k: Key, c: Comparator): seq<Movie>
    reads s
  {
    if s == [] then []
    else Tied(s[..|s| - 1], k, c) + (if KeyOf(s[|s| - 1], c) == k then [s[|s| - 1]] else [])
  }

  lemma {:induction false} InsertPermutes(t: seq<Movie>, x: Movie, c: Comparator)
    ensures multiset(Insert(t, x, c)) == multiset(t) + multiset{x}
    decreases |t|
  {
    if t != [] && !InOrder(t[|t| - 1], x, c) {
      var front := t[..|t| - 1];
      InsertPermutes(front, x, c);
      assert t == front + [t[|t| - 1]];
    }
  }

  /** The result of the sort is a permutation of its input. */
  lemma {:induction false} SortSeqPermutes(s: seq<Movie>, c: Comparator)
    ensures multiset(SortSeq(s, c)) == multiset(s)
    decreases |s|
  {
    if s != [] {
      var front := s[..|s| - 1];
      SortSeqPermutes(front, c);
      InsertPermutes(SortSeq(front, c), s[|s| - 1], c);
      assert s == front + [s[|s| - 1]];
    }
  }

  lemma TiedSnoc(s: seq<Movie>, x: Movie, k: Key, c: Comparator)
    ensures Tied(s + [x], k, c) == Tied(s, k, c) + (if KeyOf(x, c) == k then [x] else [])
  {
    assert (s + [x])[..|s|] == s;
  }

  lemma {:induction false} InsertSorted(t: seq<Movie>, x: Movie, c: Comparator)
    requires SortedBy(t, c)
    ensures SortedBy(Insert(t, x, c), c)
    decreases |t|
  {
    if t == [] || InOrder(t[|t| - 1], x, c) {
    } else {
      var front, y := t[..|t| - 1], t[|t| - 1];
      InsertSorted(front, x, c);
      var u := Insert(front, x, c);
      forall i | 0 <= i < |u|
        ensures InOrder(u[i], y, c)
      {
        assert u[i] in u;
        if u[i] != x {
          var j :| 0 <= j < |front| && front[j] == u[i];
          assert t[j] == u[i];
        }
      }
    }
  }

  lemma {:induction false} InsertTied(t: seq<Movie>, x: Movie, k: Key, c: Comparator)
    ensures Tied(Insert(t, x, c), k, c) == Tied(t, k, c) + (if KeyOf(x, c) == k then [x] else [])
    decreases |t|
  {
    if t == [] || InOrder(t[|t| - 1], x, c) {
      TiedSnoc(t, x, k, c);
    } else {
      var front, y := t[..|t| - 1], t[|t| - 1];
      assert t == front + [y];
      assert Insert(t, x, c) == Insert(front, x, c) + [y];
      assert KeyOf(x, c) == k ==> KeyOf(y, c) != k;
      InsertTied(front, x, k, c);
      TiedSnoc(Insert(front, x, c), y, k, c);
      TiedSnoc(front, y, k, c);
    }
  }

  /** The result of the sort is ordered by the comparator. */
  lemma {:induction false} SortSeqSorted(s: seq<Movie>, c: Comparator)
    ensures SortedBy(SortSeq(s, c), c)
    decreases |s|
  {
    if s != [] {
      SortSeqSorted(s[..|s| - 1], c);
      InsertSorted(SortSeq(s[..|s| - 1], c), s[|s| - 1], c);
    }
  }

  /** The sort is stable: for every key, the tied movies keep their input order. */
  lemma {:induction false} SortSeqStable(s: seq<Movie>, c: Comparator, k: Key)
    ensures Tied(SortSeq(s, c), k, c) == Tied(s, k, c)
    decreases |s|
  {
    if s != [] {
      SortSeqStable(s[..|s| - 1], c, k);
      InsertTied(SortSeq(s[..|s| - 1], c), s[|s| - 1], k, c);
    }
  }

  /** An already sorted list is left as it is. */
  lemma {:induction false} SortSeqOfSorted(s: seq<Movie>, c: Comparator)
    requires SortedBy(s, c)
    ensures SortSeq(s, c) == s
    decreases |s|
  {
    if s != [] {
      var front, x := s[..|s| - 1], s[|s| - 1];
      assert SortedBy(front, c) by {
        forall i, j | 0 <= i < j < |front|
          ensures InOrder(front[i], front[j], c)
        {
          assert front[i] == s[i] && front[j] == s[j];
        }
      }
      SortSeqOfSorted(front, c);
      assert SortSeq(s, c) == Insert(front, x, c);
      if front != [] {
        assert front[|front| - 1] == s[|s| - 2];
        assert InOrder(front[|front| - 1], x, c);
      }
      assert front + [x] == s;
    }
  }

  /**
   * Insert puts x right after the last movie that does not compare strictly
   * greater than x, when every movie from there on does.
   */
  lemma {:induction false} InsertSplit(t: seq<Movie>, x: Movie, j: int, c: Comparator)
    requires 0 <= j <= |t|
    requires j == 0 || InOrder(t[j - 1], x, c)
    requires forall k :: j <= k < |t| ==> !InOrder(t[k], x, c)
    ensures Insert(t, x, c) == t[..j] + [x] + t[j..]
    decreases |t|
  {
    if j < |t| {
      var front := t[..|t| - 1];
      InsertSplit(front, x, j, c);
      assert front[..j] == t[..j];
      assert front[j..] + [t[|t| - 1]] == t[j..];
    } else {
      assert t[..j] == t;
    }
  }

  /**
   * One pass of the insertion sort: the movie at index i moves left while its
   * left neighbour compares strictly greater.
   */
  method InsertAt(a: array<Movie>, i: int, c: Comparator)
    requires 0 <= i < a.Length
    modifies a
    ensures a[..i + 1] == Insert(old(a[..i]), old(a[i]), c)
    ensures a[i + 1..] == old(a[i + 1..])
  {
    ghost var sorted := a[..i];
    var x := a[i];
    var j := i;
    while j > 0 && !InOrder(a[j - 1], x, c)
      invariant 0 <= j <= i
      invariant a[..j] == sorted[..j]
      invariant a[j] == x
      invariant a[j + 1..i + 1] == sorted[j..]
      invariant a[i + 1..] == old(a[i + 1..])
      invariant forall k :: j <= k < i ==> !InOrder(sorted[k], x, c)
    {
      a[j - 1], a[j] := a[j], a[j - 1];
      j := j - 1;
    }
    InsertSplit(sorted, x, j, c);
    assert a[..i + 1] == a[..j] + [a[j]] + a[j + 1..i + 1];
  }

  /** Sorting one more element inserts it into the sorted prefix. */
  lemma SortSeqSnoc(s: seq<Movie>, i: int, c: Comparator)
    requires 0 <= i < |s|
    ensures SortSeq(s[..i + 1], c) == Insert(SortSeq(s[..i], c), s[i], c)
  {
    assert s[..i + 1][..i] == s[..i];
  }

  /** One outer step of the insertion sort: the sorted prefix grows by one. */
  method ExtendSorted(a: array<Movie>, i: int, c: Comparator, ghost input: seq<Movie>)
    requires 0 <= i < a.Length == |input|
    requires a[..i] == SortSeq(input[..i], c) && a[i..] == input[i..]
    modifies a
    ensures a[..i + 1] == SortSeq(input[..i + 1], c) && a[i + 1..] == input[i + 1..]
  {
    assert a[i] == input[i];
    assert a[i + 1..] == input[i + 1..];
    InsertAt(a, i, c);
    SortSeqSnoc(input, i, c);
  }

  /** `movies.sort(comparator)`, as an in-place stable insertion sort. */
  method SortInPlace(a: array<Movie>, c: Comparator)
    modifies a
    ensures a[..] == SortSeq(old(a[..]), c)
  {
    ghost var input := a[..];
    var i := 0;
    while i < a.Length
      invariant 0 <= i <= a.Length
      invariant a[..i] == SortSeq(input[..i], c)
      invariant a[i..] == input[i..]
    {
      ExtendSorted(a, i, c, input);
      i := i + 1;
    }
    assert a[..] == a[..a.Length] && input == input[..a.Length];
  }

  /** `comparing(getDuration)`, reversed for "descending". */
  function ByDuration(duration: string): Comparator {
    Comparator(Duration, OrderOf(duration), None)
  }

  /** `comparing(getRating)`, reversed for "descending". */
  function ByRating(rating: string): Comparator {
    Comparator(Rating, OrderOf(rating), None)
  }

  /**
   * Both directions given. The comparator on duration is built; the two
   * `thenComparing(getRating)` calls return new comparators that are dropped,
   * so the list is sorted by duration alone and `rating` has no effect.
   */
  method SortByDurationAndRating(movies: array<Movie>, duration: string, rating: string)
    modifies movies
    ensures movies[..] == SortSeq(old(movies[..]), ByDuration(duration))
  {
    var comparator;
    if duration == "descending" {
      comparator := Comparator(Duration, Descending, None);
    } else {
      comparator := Comparator(Duration, Ascending, None);
    }
    SortInPlace(movies, comparator);
  }

  method SortByRating(movies: array<Movie>, rating: string)
    modifies movies
    ensures movies[..] == SortSeq(old(movies[..]), ByRating(rating))
  {
    var comparator;
    if rating == "descending" {
      comparator := Comparator(Rating, Descending, None);
    } else {
      comparator := Comparator(Rating, Ascending, None);
    }
    SortInPlace(movies, comparator);
  }

  method SortByDuration(movies: array<Movie>, duration: string)
    modifies movies
    ensures movies[..] == SortSeq(old(movies[..]), ByDuration(duration))
  {
    var comparator;
    if duration == "descending" {
      comparator := Comparator(Duration, Descending, None);
    } else {
      comparator := Comparator(Duration, Ascending, None);
    }
    SortInPlace(movies, comparator);
  }

  /**
   * The comparator `sortByDurationAndRating` evidently means to build: duration
   * in the direction of `duration`, ties broken by rating in the direction of
   * `rating`.
   */
  function ByDurationThenRating(duration: string, rating: string): Comparator {
    Comparator(Duration, OrderOf(duration), Some((Rating, OrderOf(rating))))
  }

  /** Sorting by duration with the rating tie-breaker kept. */
  method SortByDurationThenRating(movies: array<Movie>, duration: string, rating: string)
    modifies movies
    ensures movies[..] == SortSeq(old(movies[..]), ByDurationThenRating(duration, rating))
  {
    var comparator;
    if duration == "descending" {
      comparator := Comparator(Duration, Descending, None);
    } else {
      comparator := Comparator(Duration, Ascending, None);
    }
    if rating == "descending" {
      comparator := comparator.(tieBreak := Some((Rating, Descending)));
    } else {
      comparator := comparator.(tieBreak := Some((Rating, Ascending)));
    }
    SortInPlace(movies, comparator);
  }

  /**
   * With the tie-breaker kept the result is ordered by duration, and movies of
   * equal duration are ordered by rating in the direction of `rating`.
   */
  lemma DurationThenRatingOrder(s: seq<Movie>, duration: string, rating: string)
    ensures var r := SortSeq(s, ByDurationThenRating(duration, rating));
      forall i, j :: 0 <= i < j < |r| ==>
        (if duration == "descending" then r[i].duration >= r[j].duration
         else r[i].duration <= r[j].duration) &&
        (r[i].duration == r[j].duration ==>
           if rating == "descending" then r[i].Rating() >= r[j].Rating()
           else r[i].Rating() <= r[j].Rating())
  {
    SortSeqSorted(s, ByDurationThenRating(duration, rating));
  }

  /**
   * Two movies of equal duration, the lower rated first: sorting with rating
   * "descending" leaves them as they are as written, and swaps them once the
   * tie-breaker is kept.
   */
  lemma RatingTieBreakDropped(a: Movie, b: Movie, duration: string)
    requires a.duration == b.duration && a.Rating() < b.Rating()
    ensures SortSeq([a, b], ByDuration(duration)) == [a, b]
    ensures SortSeq([a, b], ByDurationThenRating(duration, "descending")) == [b, a]
  {
    var c, d := ByDuration(duration), ByDurationThenRating(duration, "descending");
    assert [a, b][..1] == [a] && [a][..0] == [];
    assert SortSeq([a], c) == [a] && SortSeq([a], d) == [a];
    assert InOrder(a, b, c);
    assert !InOrder(a, b, d);
    assert SortSeq([a, b], c) == Insert([a], b, c) == [a, b];
    assert SortSeq([a, b], d) == Insert([a], b, d) == Insert([], b, d) + [a];
  }

  /** `Sort.apply`: picks the sort from the criteria present; none present, nothing moves. */
  method Apply(sort: Sort, movies: array<Movie>)
    modifies movies
    ensures multiset(movies[..]) == multiset(old(movies[..]))
    ensures sort.rating.None? && sort.duration.None? ==> movies[..] == old(movies[..])
    ensures sort.duration.Some? ==>
      movies[..] == SortSeq(old(movies[..]), ByDuration(sort.duration.value))
    ensures sort.rating.Some? && sort.duration.None? ==>
      movies[..] == SortSeq(old(movies[..]), ByRating(sort.rating.value))
  {
    ghost var input := movies[..];
    if sort.rating.Some? && sort.duration.Some? {
      SortByDurationAndRating(movies, sort.duration.value, sort.rating.value);
      SortSeqPermutes(input, ByDuration(sort.duration.value));
      return;
    }
    if sort.rating.Some? {
      SortByRating(movies, sort.rating.value);
      SortSeqPermutes(input, ByRating(sort.rating.value));
      return;
    }
    if sort.duration.Some? {
      SortByDuration(movies, sort.duration.value);
      SortSeqPermutes(input, ByDuration(sort.duration.value));
    }
  }

  /** Sorting by duration orders by duration: nonincreasing for "descending", else nondecreasing. */
  lemma DurationOrder(s: seq<Movie>, duration: string)
    ensures var r := SortSeq(s, ByDuration(duration));
      forall i, j :: 0 <= i < j < |r| ==>
        if duration == "descending" then r[i].duration >= r[j].duration
        else r[i].duration <= r[j].duration
  {
    SortSeqSorted(s, ByDuration(duration));
  }

  /** Sorting by rating orders by rating: nonincreasing for "descending", else nondecreasing. */
  lemma RatingOrder(s: seq<Movie>, rating: string)
    ensures var r := SortSeq(s, ByRating(rating));
      forall i, j :: 0 <= i < j < |r| ==>
        if rating == "descending" then r[i].Rating() >= r[j].Rating()
        else r[i].Rating() <= r[j].Rating()
  {
    SortSeqSorted(s, ByRating(rating));
  }

  /**
   * Stability stated pairwise: two movies with the same duration appear in the
   * sorted list in the order they had in the input, in either direction.
   */
  lemma DurationSortIsStable(s: seq<Movie>, duration: string, x: Movie, y: Movie)
    requires x.duration == y.duration
    ensures var c := ByDuration(duration);
      Tied(SortSeq(s, c), KeyOf(x, c), c) == Tied(s, KeyOf(x, c), c)
    ensures KeyOf(x, ByDuration(duration)) == KeyOf(y, ByDuration(duration))
  {
    SortSeqStable(s, ByDuration(duration), KeyOf(x, ByDuration(duration)));
  }

  ghost predicate DistinctDurations(s: seq<Movie>) {
    forall i, j :: 0 <= i < j < |s| ==> s[i].duration != s[j].duration
  }

  ghost predicate IncreasingDurations(s: seq<Movie>) {
    forall i, j :: 0 <= i < j < |s| ==> s[i].duration < s[j].duration
  }

  function Reverse(s: seq<Movie>): seq<Movie> {
    if s == [] then [] else [s[|s| - 1]] + Reverse(s[..|s| - 1])
  }

  lemma {:induction false} ReverseAt(s: seq<Movie>)
    ensures |Reverse(s)| == |s|
    ensures forall i :: 0 <= i < |s| ==> Reverse(s)[i] == s[|s| - 1 - i]
    decreases |s|
  {
    if s != [] {
      ReverseAt(s[..|s| - 1]);
    }
  }

  lemma {:induction false} ReversePermutes(s: seq<Movie>)
    ensures multiset(Reverse(s)) == multiset(s)
    decreases |s|
  {
    if s != [] {
      ReversePermutes(s[..|s| - 1]);
      assert s == s[..|s| - 1] + [s[|s| - 1]];
    }
  }

  lemma MultisetWithout(q: seq<Movie>, k: int)
    requires 0 <= k < |q|
    ensures multiset(q[..k] + q[k + 1..]) == multiset(q) - multiset{q[k]}
  {
    assert q == q[..k] + [q[k]] + q[k + 1..];
  }

  lemma WithoutDistinct(q: seq<Movie>, k: int)
    requires 0 <= k < |q| && DistinctDurations(q)
    ensures var rest := q[..k] + q[k + 1..];
      DistinctDurations(rest) && forall m :: m in rest ==> m.duration != q[k].duration
  {
    var rest := q[..k] + q[k + 1..];
    assert forall m :: 0 <= m < |rest| ==> rest[m] == if m < k then q[m] else q[m + 1];
  }

  lemma DistinctSnoc(front: seq<Movie>, x: Movie)
    requires DistinctDurations(front)
    requires forall m :: m in front ==> m.duration != x.duration
    ensures DistinctDurations(front + [x])
  {
    var p := front + [x];
    forall i, j | 0 <= i < j < |p|
      ensures p[i].duration != p[j].duration
    {
      assert p[i] == front[i] && p[i] in front;
    }
  }

  /** Pairwise distinct durations survive any rearrangement. */
  lemma {:induction false} DistinctDurationsPermutation(p: seq<Movie>, q: seq<Movie>)
    requires multiset(p) == multiset(q)
    requires DistinctDurations(q)
    ensures DistinctDurations(p)
    decreases |p|
  {
    if p != [] {
      var front, x := p[..|p| - 1], p[|p| - 1];
      assert p == front + [x];
      assert x in multiset(q);
      var k :| 0 <= k < |q| && q[k] == x;
      var rest := q[..k] + q[k + 1..];
      MultisetWithout(q, k);
      WithoutDistinct(q, k);
      assert multiset(front) == multiset(rest);
      DistinctDurationsPermutation(front, rest);
      forall m | m in front
        ensures m.duration != x.duration
      {
        assert m in multiset(rest);
      }
      DistinctSnoc(front, x);
    }
  }

  /** In a strictly increasing list the head is the unique movie of least duration. */
  lemma HeadIsLeast(q: seq<Movie>, x: Movie)
    requires IncreasingDurations(q) && x in q
    ensures q[0].duration <= x.duration
    ensures x.duration <= q[0].duration ==> x == q[0]
  {
    var k :| 0 <= k < |q| && q[k] == x;
  }

  lemma IncreasingTail(q: seq<Movie>)
    requires IncreasingDurations(q) && q != []
    ensures IncreasingDurations(q[1..])
  {
    forall i, j | 0 <= i < j < |q| - 1
      ensures q[1..][i].duration < q[1..][j].duration
    {
      assert q[1..][i] == q[i + 1] && q[1..][j] == q[j + 1];
    }
  }

  /** Two arrangements of the same movies, both strictly increasing in duration, are one. */
  lemma {:induction false} IncreasingDurationsUnique(p: seq<Movie>, q: seq<Movie>)
    requires multiset(p) == multiset(q)
    requires IncreasingDurations(p) && IncreasingDurations(q)
    ensures p == q
    decreases |p|
  {
    assert |p| == |multiset(p)| == |q|;
    if p != [] {
      assert p[0] in multiset(q) && q[0] in multiset(p);
      HeadIsLeast(p, q[0]);
      HeadIsLeast(q, p[0]);
      assert p[0] == q[0];
      assert p == [p[0]] + p[1..] && q == [q[0]] + q[1..];
      assert multiset(p) == multiset{p[0]} + multiset(p[1..]);
      assert multiset(q) == multiset{p[0]} + multiset(q[1..]);
      assert multiset(p[1..]) == multiset(p) - multiset{p[0]};
      assert multiset(q[1..]) == multiset(q) - multiset{p[0]};
      IncreasingTail(p);
      IncreasingTail(q);
      IncreasingDurationsUnique(p[1..], q[1..]);
    }
  }

  ghost predicate DecreasingDurations(s: seq<Movie>) {
    forall i, j :: 0 <= i < j < |s| ==> s[i].duration > s[j].duration
  }

  /** The duration sort of movies with distinct durations is strictly ordered. */
  lemma StrictDurationOrder(s: seq<Movie>, direction: string)
    requires DistinctDurations(s)
    ensures var r := SortSeq(s, ByDuration(direction));
      if direction == "descending" then DecreasingDurations(r) else IncreasingDurations(r)
  {
    var r := SortSeq(s, ByDuration(direction));
    DurationOrder(s, direction);
    SortSeqPermutes(s, ByDuration(direction));
    DistinctDurationsPermutation(r, s);
  }

  lemma ReverseOfDecreasing(s: seq<Movie>)
    requires DecreasingDurations(s)
    ensures IncreasingDurations(Reverse(s))
  {
    var r := Reverse(s);
    ReverseAt(s);
    forall i, j | 0 <= i < j < |r|
      ensures r[i].duration < r[j].duration
    {
      assert r[i] == s[|s| - 1 - i] && r[j] == s[|s| - 1 - j];
    }
  }

  /**
   * For movies with pairwise distinct durations, sorting by duration in any
   * direction other than "descending" gives exactly the reverse of sorting
   * "descending".
   */
  lemma AscendingReversesDescending(s: seq<Movie>, direction: string)
    requires DistinctDurations(s)
    requires direction != "descending"
    ensures SortSeq(s, ByDuration(direction)) == Reverse(SortSeq(s, ByDuration("descending")))
  {
    var up := SortSeq(s, ByDuration(direction));
    var down := SortSeq(s, ByDuration("descending"));
    StrictDurationOrder(s, direction);
    StrictDurationOrder(s, "descending");
    ReverseOfDecreasing(down);
    SortSeqPermutes(s, ByDuration(direction));
    SortSeqPermutes(s, ByDuration("descending"));
    ReversePermutes(down);
    IncreasingDurationsUnique(up, Reverse(down));
  }
}
