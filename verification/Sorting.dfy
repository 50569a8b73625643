// Python's sort: stable, by a numeric key.
module Sorting {
  ghost predicate Ascending<T>(s: seq<T>, rank: T -> real)
  {
    forall i, j :: 0 <= i < j < |s| ==> rank(s[i]) <= rank(s[j])
  }

  function Inserted<T>(s: seq<T>, x: T, rank: T -> real): seq<T>
  {
    if s == [] || rank(s[|s| - 1]) <= rank(x) then s + [x]
    else Inserted(s[..|s| - 1], x, rank) + [s[|s| - 1]]
  }

  function SortBy<T>(s: seq<T>, rank: T -> real): seq<T>
  {
    if s == [] then [] else Inserted(SortBy(s[..|s| - 1], rank), s[|s| - 1], rank)
  }

  ghost predicate AtMost<T>(s: seq<T>, rank: T -> real, bound: real)
  {
    forall i :: 0 <= i < |s| ==> rank(s[i]) <= bound
  }

  lemma AscendingThenOne<T>(s: seq<T>, x: T, rank: T -> real)
    requires Ascending(s, rank) && AtMost(s, rank, rank(x))
    ensures Ascending(s + [x], rank) && forall bound :: rank(x) <= bound ==> AtMost(s + [x], rank, bound)
  {
  }

  lemma {:induction false} InsertedInPlace<T>(s: seq<T>, x: T, rank: T -> real, bound: real)
    requires Ascending(s, rank) && AtMost(s, rank, bound) && rank(x) <= bound
    ensures Ascending(Inserted(s, x, rank), rank) && AtMost(Inserted(s, x, rank), rank, bound)
    ensures multiset(Inserted(s, x, rank)) == multiset(s) + multiset{x}
  {
    if s == [] || rank(s[|s| - 1]) <= rank(x) {
      AscendingThenOne(s, x, rank);
    } else {
      var init, last := s[..|s| - 1], s[|s| - 1];
      InsertedInPlace(init, x, rank, rank(last));
      AscendingThenOne(Inserted(init, x, rank), last, rank);
      assert s == init + [last];
    }
  }

  lemma Bounded<T>(s: seq<T>, x: T, rank: T -> real) returns (bound: real)
    requires Ascending(s, rank)
    ensures AtMost(s, rank, bound) && rank(x) <= bound
  {
    bound := if s == [] || rank(s[|s| - 1]) <= rank(x) then rank(x) else rank(s[|s| - 1]);
  }

  // Sorting loses nothing, adds nothing, and orders.
  lemma {:induction false} Sorted<T>(s: seq<T>, rank: T -> real)
    ensures Ascending(SortBy(s, rank), rank) && multiset(SortBy(s, rank)) == multiset(s) && |SortBy(s, rank)| == |s|
  {
    if s != [] {
      Sorted(s[..|s| - 1], rank);
      var before, x := SortBy(s[..|s| - 1], rank), s[|s| - 1];
      var bound := Bounded(before, x, rank);
      InsertedInPlace(before, x, rank, bound);
      assert s == s[..|s| - 1] + [s[|s| - 1]];
    }
    assert |multiset(SortBy(s, rank))| == |SortBy(s, rank)| && |multiset(s)| == |s|;
  }

  lemma SortedLength<T>(s: seq<T>, rank: T -> real)
    ensures |SortBy(s, rank)| == |s|
  {
    Sorted(s, rank);
  }

  lemma SameLast<T>(a: seq<T>, b: seq<T>, rank: T -> real)
    requires Ascending(a, rank) && Ascending(b, rank) && multiset(a) == multiset(b) && a != [] && b != []
    ensures rank(a[|a| - 1]) == rank(b[|b| - 1]) && b[|b| - 1] in a
  {
    assert a[|a| - 1] in multiset(b) && b[|b| - 1] in multiset(a);
    var i :| 0 <= i < |b| && b[i] == a[|a| - 1];
    var j :| 0 <= j < |a| && a[j] == b[|b| - 1];
  }

  lemma WithoutLast<T>(a: seq<T>, b: seq<T>)
    requires multiset(a) == multiset(b) && a != [] && b != [] && a[|a| - 1] == b[|b| - 1]
    ensures multiset(a[..|a| - 1]) == multiset(b[..|b| - 1])
  {
    assert a == a[..|a| - 1] + [a[|a| - 1]] && b == b[..|b| - 1] + [b[|b| - 1]];
    assert multiset(a[..|a| - 1]) == multiset(a) - multiset{a[|a| - 1]};
    assert multiset(b[..|b| - 1]) == multiset(b) - multiset{b[|b| - 1]};
  }

  ghost predicate TellsApart<T(!new)>(rank: T -> real)
  {
    forall x, y :: rank(x) == rank(y) ==> x == y
  }

  // With a key that tells elements apart there is only one sorted order.
  lemma {:induction false} OnlyOneOrder<T(!new)>(a: seq<T>, b: seq<T>, rank: T -> real)
    requires Ascending(a, rank) && Ascending(b, rank) && multiset(a) == multiset(b)
    requires TellsApart(rank)
    ensures a == b
  {
    assert |multiset(a)| == |a| && |multiset(b)| == |b|;
    if a != [] {
      var n := |a| - 1;
      SameLast(a, b, rank);
      WithoutLast(a, b);
      OnlyOneOrder(a[..n], b[..n], rank);
      assert a == a[..n] + [a[n]] && b == b[..n] + [b[n]];
    }
  }

  // Sorted seed lists agree exactly when the same seeds occur equally often.
  lemma SortedAlike<T(!new)>(a: seq<T>, b: seq<T>, rank: T -> real)
    requires TellsApart(rank)
    ensures SortBy(a, rank) == SortBy(b, rank) <==> multiset(a) == multiset(b)
  {
    Sorted(a, rank);
    Sorted(b, rank);
    if multiset(a) == multiset(b) {
      OnlyOneOrder(SortBy(a, rank), SortBy(b, rank), rank);
    }
  }

  // -- sequences without repeats ---------------------------------------------------

  ghost predicate Distinct<T>(s: seq<T>)
  {
    forall i, j :: 0 <= i < j < |s| ==> s[i] != s[j]
  }

  lemma {:induction false} OnceEach<T>(s: seq<T>, x: T)
    requires Distinct(s)
    ensures multiset(s)[x] <= 1
  {
    if s != [] {
      OnceEach(s[1..], x);
      assert s == [s[0]] + s[1..];
      if s[0] == x {
        assert x !in s[1..];
      }
    }
  }

  lemma TwiceHere<T>(s: seq<T>, i: nat, j: nat)
    requires i < j < |s| && s[i] == s[j]
    ensures multiset(s)[s[i]] >= 2
  {
    assert s == s[..j] + [s[j]] + s[j + 1..];
    assert s[..j][i] in multiset(s[..j]);
  }

  lemma Rearranged<T>(a: seq<T>, b: seq<T>)
    requires multiset(a) == multiset(b) && Distinct(a)
    ensures |a| == |b| && Distinct(b) && forall x :: x in a <==> x in b
  {
    assert |multiset(a)| == |a| && |multiset(b)| == |b|;
    forall x ensures x in a <==> x in b {
      assert x in multiset(a) <==> x in multiset(b);
    }
    forall i, j | 0 <= i < j < |b| ensures b[i] != b[j] {
      if b[i] == b[j] {
        TwiceHere(b, i, j);
        OnceEach(a, b[i]);
        assert false;
      }
    }
  }
}
