/** A total order on text, and sorting by it. */
module Order {

  /** Lexicographic order by code point. */
  predicate TextLeq(a: string, b: string) {
    a == [] || (b != [] && (a[0] < b[0] || (a[0] == b[0] && TextLeq(a[1..], b[1..]))))
  }

  lemma {:induction false} TextTotal(a: string, b: string)
    ensures TextLeq(a, b) || TextLeq(b, a)
  {
    if a != [] && b != [] && a[0] == b[0] {
      TextTotal(a[1..], b[1..]);
    }
  }

  lemma {:induction false} TextAntisymmetric(a: string, b: string)
    requires TextLeq(a, b) && TextLeq(b, a)
    ensures a == b
  {
    if a != [] {
      TextAntisymmetric(a[1..], b[1..]);
      assert a == [a[0]] + a[1..] && b == [b[0]] + b[1..];
    }
  }

  lemma {:induction false} TextTransitive(a: string, b: string, c: string)
    requires TextLeq(a, b) && TextLeq(b, c)
    ensures TextLeq(a, c)
  {
    if a != [] && a[0] == b[0] && b[0] == c[0] {
      TextTransitive(a[1..], b[1..], c[1..]);
    }
  }

  /** A sort key: a number, then two texts. */
  datatype Rank = Rank(level: int, first: string, second: string)

  predicate RankLeq(a: Rank, b: Rank) {
    || a.level < b.level
    || (a.level == b.level && a.first != b.first && TextLeq(a.first, b.first))
    || (a.level == b.level && a.first == b.first && TextLeq(a.second, b.second))
  }

  lemma RankTotal(a: Rank, b: Rank)
    ensures RankLeq(a, b) || RankLeq(b, a)
  {
    TextTotal(a.first, b.first);
    TextTotal(a.second, b.second);
  }

  lemma RankAntisymmetric(a: Rank, b: Rank)
    requires RankLeq(a, b) && RankLeq(b, a)
    ensures a == b
  {
    if a.first == b.first {
      TextAntisymmetric(a.second, b.second);
    } else {
      TextAntisymmetric(a.first, b.first);
    }
  }

  lemma RankTransitive(a: Rank, b: Rank, c: Rank)
    requires RankLeq(a, b) && RankLeq(b, c)
    ensures RankLeq(a, c)
  {
    if a.level == b.level == c.level {
      if a.first == b.first == c.first {
        TextTransitive(a.second, b.second, c.second);
      } else if a.first != b.first && b.first != c.first {
        TextTransitive(a.first, b.first, c.first);
        if a.first == c.first {
          TextAntisymmetric(a.first, b.first);
        }
      }
    }
  }

  ghost predicate Sorted<T>(xs: seq<T>, rank: T -> Rank) {
    forall i, j :: 0 <= i < j < |xs| ==> RankLeq(rank(xs[i]), rank(xs[j]))
  }

  function Inserted<T(!new)>(x: T, xs: seq<T>, rank: T -> Rank): (r: seq<T>)
    ensures |r| == |xs| + 1
    ensures forall y :: y in r <==> y == x || y in xs
  {
    if xs == [] || RankLeq(rank(x), rank(xs[0])) then [x] + xs
    else
      assert xs == [xs[0]] + xs[1..];
      [xs[0]] + Inserted(x, xs[1..], rank)
  }

  /** Stable sort by rank. */
  function SortBy<T(!new)>(xs: seq<T>, rank: T -> Rank): (r: seq<T>)
    ensures |r| == |xs|
    ensures forall y :: y in r <==> y in xs
  {
    if xs == [] then []
    else
      assert xs == [xs[0]] + xs[1..];
      Inserted(xs[0], SortBy(xs[1..], rank), rank)
  }

  lemma {:induction false} InsertedSorted<T(!new)>(x: T, xs: seq<T>, rank: T -> Rank)
    requires Sorted(xs, rank)
    ensures Sorted(Inserted(x, xs, rank), rank)
  {
    if xs != [] {
      var rest := xs[1..];
      if RankLeq(rank(x), rank(xs[0])) {
        forall j | 0 <= j < |xs|
          ensures RankLeq(rank(x), rank(xs[j]))
        {
          if j > 0 {
            RankTransitive(rank(x), rank(xs[0]), rank(xs[j]));
          }
        }
      } else {
        RankTotal(rank(x), rank(xs[0]));
        InsertedSorted(x, rest, rank);
        var tail := Inserted(x, rest, rank);
        forall j | 0 <= j < |tail|
          ensures RankLeq(rank(xs[0]), rank(tail[j]))
        {
          assert tail[j] in tail;
          if tail[j] != x {
            var k :| 0 <= k < |rest| && rest[k] == tail[j];
            assert xs[k + 1] == tail[j];
          }
        }
      }
    }
  }

  lemma {:induction false} SortBySorted<T(!new)>(xs: seq<T>, rank: T -> Rank)
    ensures Sorted(SortBy(xs, rank), rank)
  {
    if xs != [] {
      SortBySorted(xs[1..], rank);
      InsertedSorted(xs[0], SortBy(xs[1..], rank), rank);
    }
  }

  lemma {:induction false} InsertedMultiset<T(!new)>(x: T, xs: seq<T>, rank: T -> Rank)
    ensures multiset(Inserted(x, xs, rank)) == multiset(xs) + multiset{x}
  {
    if xs != [] && !RankLeq(rank(x), rank(xs[0])) {
      InsertedMultiset(x, xs[1..], rank);
      assert xs == [xs[0]] + xs[1..];
    }
  }

  lemma {:induction false} SortByMultiset<T(!new)>(xs: seq<T>, rank: T -> Rank)
    ensures multiset(SortBy(xs, rank)) == multiset(xs)
  {
    if xs != [] {
      SortByMultiset(xs[1..], rank);
      InsertedMultiset(xs[0], SortBy(xs[1..], rank), rank);
      assert xs == [xs[0]] + xs[1..];
    }
  }

  lemma MemberOfPermutation<T>(xs: seq<T>, ys: seq<T>, x: T)
    requires multiset(xs) == multiset(ys) && x in xs
    ensures x in ys
  {
    assert x in multiset(xs);
  }

  lemma FirstIsLeast<T>(xs: seq<T>, x: T, rank: T -> Rank)
    requires Sorted(xs, rank) && x in xs
    ensures x == xs[0] || RankLeq(rank(xs[0]), rank(x))
  {
  }

  lemma DropFirst<T>(xs: seq<T>)
    requires xs != []
    ensures multiset(xs[1..]) == multiset(xs) - multiset{xs[0]}
  {
    assert xs == [xs[0]] + xs[1..];
  }

  /** Sorted sequences of the same distinctly ranked elements are equal. */
  lemma {:induction false} SortedUnique<T(!new)>(xs: seq<T>, ys: seq<T>, rank: T -> Rank)
    requires Sorted(xs, rank) && Sorted(ys, rank) && multiset(xs) == multiset(ys)
    requires forall a, b :: a in xs && b in xs && rank(a) == rank(b) ==> a == b
    ensures xs == ys
  {
    assert |xs| == |multiset(xs)| == |ys|;
    if xs != [] {
      var x, y := xs[0], ys[0];
      MemberOfPermutation(xs, ys, x);
      MemberOfPermutation(ys, xs, y);
      FirstIsLeast(ys, x, rank);
      FirstIsLeast(xs, y, rank);
      if x != y {
        RankAntisymmetric(rank(x), rank(y));
      }
      DropFirst(xs);
      DropFirst(ys);
      SortedUnique(xs[1..], ys[1..], rank);
      assert xs == [x] + xs[1..] && ys == [y] + ys[1..];
    }
  }

  /** The order of the input does not matter when elements rank differently. */
  lemma SortIgnoresOrder<T(!new)>(xs: seq<T>, ys: seq<T>, rank: T -> Rank)
    requires multiset(xs) == multiset(ys)
    requires forall a, b :: a in xs && b in xs && rank(a) == rank(b) ==> a == b
    ensures SortBy(xs, rank) == SortBy(ys, rank)
  {
    SortBySorted(xs, rank);
    SortBySorted(ys, rank);
    SortByMultiset(xs, rank);
    SortByMultiset(ys, rank);
    SortedUnique(SortBy(xs, rank), SortBy(ys, rank), rank);
  }

  // ------------------------------------------------------------------ filtering

  function Filter<T(!new)>(xs: seq<T>, p: T -> bool): (r: seq<T>)
    ensures forall x :: x in r <==> x in xs && p(x)
    ensures |r| <= |xs|
  {
    if xs == [] then []
    else
      var n := |xs| - 1;
      assert xs == xs[..n] + [xs[n]];
      Filter(xs[..n], p) + (if p(xs[n]) then [xs[n]] else [])
  }

  /** No element is listed twice. */
  ghost predicate NoRepeats<T>(xs: seq<T>) {
    forall i, j :: 0 <= i < j < |xs| ==> xs[i] != xs[j]
  }

  lemma {:induction false} FilterNoRepeats<T(!new)>(xs: seq<T>, p: T -> bool)
    requires NoRepeats(xs)
    ensures NoRepeats(Filter(xs, p))
  {
    if xs != [] {
      var n := |xs| - 1;
      FilterNoRepeats(xs[..n], p);
      var front := Filter(xs[..n], p);
      assert forall i :: 0 <= i < |front| ==> front[i] in front;
    }
  }

  lemma {:induction false} InsertedNoRepeats<T(!new)>(x: T, xs: seq<T>, rank: T -> Rank)
    requires NoRepeats(xs) && x !in xs
    ensures NoRepeats(Inserted(x, xs, rank))
  {
    if xs != [] && !RankLeq(rank(x), rank(xs[0])) {
      InsertedNoRepeats(x, xs[1..], rank);
      var rest := Inserted(x, xs[1..], rank);
      assert forall i :: 0 <= i < |rest| ==> rest[i] in rest;
    }
  }

  lemma {:induction false} SortNoRepeats<T(!new)>(xs: seq<T>, rank: T -> Rank)
    requires NoRepeats(xs)
    ensures NoRepeats(SortBy(xs, rank))
  {
    if xs != [] {
      SortNoRepeats(xs[1..], rank);
      assert xs[0] !in xs[1..];
      InsertedNoRepeats(xs[0], SortBy(xs[1..], rank), rank);
    }
  }
}
