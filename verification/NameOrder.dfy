// Names in order: what sorting a set of strings comes to.
module NameOrder {
  // Lexicographically, a proper prefix first.
  predicate Precedes(a: string, b: string)
  {
    b != [] && (a == [] || a[0] < b[0] || (a[0] == b[0] && Precedes(a[1..], b[1..])))
  }

  // They part at i, where a ends or has the smaller character.
  ghost predicate PartsAt(a: string, b: string, i: nat)
  {
    i <= |a| && i < |b| && a[..i] == b[..i] && (i == |a| || a[i] < b[i])
  }

  lemma {:induction false} PrecedesMeans(a: string, b: string)
    ensures Precedes(a, b) <==> exists i: nat :: PartsAt(a, b, i)
  {
    if b == [] || a == [] || a[0] != b[0] {
      if b != [] && (a == [] || a[0] < b[0]) {
        assert PartsAt(a, b, 0);
      }
    } else {
      PrecedesMeans(a[1..], b[1..]);
      if i: nat :| PartsAt(a[1..], b[1..], i) {
        assert a == [a[0]] + a[1..] && b == [b[0]] + b[1..];
        assert a[..i + 1] == [a[0]] + a[1..][..i] && b[..i + 1] == [b[0]] + b[1..][..i];
        assert PartsAt(a, b, i + 1);
      }
      if i: nat :| PartsAt(a, b, i) {
        assert a[1..][..i - 1] == a[..i][1..] && b[1..][..i - 1] == b[..i][1..];
        assert PartsAt(a[1..], b[1..], i - 1);
      }
    }
  }

  lemma {:induction false} OneWayOnly(a: string, b: string)
    ensures !(Precedes(a, b) && Precedes(b, a)) && (Precedes(a, b) || a == b || Precedes(b, a))
  {
    if a != [] && b != [] && a[0] == b[0] {
      OneWayOnly(a[1..], b[1..]);
      assert a == [a[0]] + a[1..] && b == [b[0]] + b[1..];
    }
  }

  lemma {:induction false} Transitive(a: string, b: string, c: string)
    requires Precedes(a, b) && Precedes(b, c)
    ensures Precedes(a, c)
  {
    if a != [] && a[0] == b[0] == c[0] {
      Transitive(a[1..], b[1..], c[1..]);
    }
  }

  ghost predicate Alphabetical(names: seq<string>)
  {
    forall i, j :: 0 <= i < j < |names| ==> Precedes(names[i], names[j])
  }

  function Inserted(names: seq<string>, x: string): seq<string>
  {
    if names == [] || Precedes(x, names[0]) then [x] + names
    else [names[0]] + Inserted(names[1..], x)
  }

  lemma {:induction false} InsertedInOrder(names: seq<string>, x: string)
    requires Alphabetical(names) && x !in names
    ensures Alphabetical(Inserted(names, x))
    ensures |Inserted(names, x)| == |names| + 1 && forall y :: y in Inserted(names, x) <==> y == x || y in names
  {
    if names != [] {
      OneWayOnly(x, names[0]);
      if Precedes(x, names[0]) {
        forall j | 0 < j < |names| ensures Precedes(x, names[j]) {
          Transitive(x, names[0], names[j]);
        }
      } else {
        var rest := Inserted(names[1..], x);
        InsertedInOrder(names[1..], x);
        forall j | 0 <= j < |rest| ensures Precedes(names[0], rest[j]) {
          assert rest[j] in rest;
        }
        assert names == [names[0]] + names[1..];
      }
    }
  }

  // A set of names has one order only.
  lemma {:induction false} OneOrder(a: seq<string>, b: seq<string>)
    requires Alphabetical(a) && Alphabetical(b) && forall x :: x in a <==> x in b
    ensures a == b
  {
    if a == [] {
      if b != [] {
        HasOne(b);
      }
    } else {
      assert a[0] in a && a[0] in b;
      assert b[0] in b && b[0] in a;
      OneWayOnly(a[0], b[0]);
      assert a[0] == b[0];
      SameRest(a, b);
      SameRest(b, a);
      OneOrder(a[1..], b[1..]);
    }
  }

  lemma HasOne(names: seq<string>)
    requires names != []
    ensures exists x :: x in names
  {
    assert names[0] in names;
  }

  lemma SameRest(a: seq<string>, b: seq<string>)
    requires a != [] && b != [] && a[0] == b[0] && Alphabetical(a) && forall x :: x in a ==> x in b
    ensures Alphabetical(a[1..]) && forall x :: x in a[1..] ==> x in b[1..]
  {
    forall x | x in a[1..] ensures x in b[1..] {
      var i :| 0 < i < |a| && a[i] == x;
      OneWayOnly(a[0], x);
      assert a[i] in a && b == [b[0]] + b[1..];
    }
  }

  // The names of a set, sorted.
  method SortNames(all: set<string>) returns (names: seq<string>)
    ensures Alphabetical(names) && |names| == |all| && forall x :: x in names <==> x in all
  {
    names := [];
    var left := all;
    while left != {}
      invariant left <= all && |names| + |left| == |all|
      invariant Alphabetical(names) && forall x :: x in names <==> x in all && x !in left
    {
      var x :| x in left;
      InsertedInOrder(names, x);
      left, names := left - {x}, Inserted(names, x);
    }
  }
}
