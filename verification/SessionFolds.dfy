// Cross-validation folds split by recording session, and the gate that checks
// that no group of samples is on both sides of a split.
module SessionFolds {
  import opened Prelude
  import opened Sorting
  import opened NameOrder

  type Session = string

  datatype Sample = Sample(id: string, tag: int, session: Session)

  datatype FoldError = TooSmallK | TooFewSessions

  datatype Fold = Fold(train: seq<Sample>, eval: seq<Sample>)

  ghost function SessionsOf(samples: seq<Sample>): set<Session>
  {
    set i | 0 <= i < |samples| :: samples[i].session
  }

  method Sessions(samples: seq<Sample>) returns (grouped: map<Session, seq<Sample>>)
    ensures grouped.Keys == SessionsOf(samples)
    ensures forall s :: s in grouped ==> grouped[s] == Picked(samples, x => x == s)
  {
    grouped := map[];
    for i := 0 to |samples|
      invariant grouped.Keys == SessionsOf(samples[..i])
      invariant forall s :: s in grouped ==> grouped[s] == Picked(samples[..i], x => x == s)
    {
      assert samples[..i + 1][..i] == samples[..i];
      var s := samples[i].session;
      if s !in grouped {
        NonePicked(samples[..i], s);
      }
      grouped := grouped[s := (if s in grouped then grouped[s] else []) + [samples[i]]];
    }
    assert samples[..|samples|] == samples;
  }

  // The samples of the sessions asked for, in order.
  ghost function Picked(samples: seq<Sample>, want: Session -> bool): seq<Sample>
  {
    if samples == [] then []
    else
      var last := samples[|samples| - 1];
      Picked(samples[..|samples| - 1], want) + if want(last.session) then [last] else []
  }

  lemma {:induction false} NonePicked(samples: seq<Sample>, s: Session)
    requires s !in SessionsOf(samples)
    ensures Picked(samples, x => x == s) == []
  {
    if samples != [] {
      assert samples[|samples| - 1].session in SessionsOf(samples);
      NonePicked(samples[..|samples| - 1], s);
    }
  }

  // -- the assignment of sessions to folds ---------------------------------------

  ghost function Exchanged<T>(s: seq<T>, i: nat, j: nat): (r: seq<T>)
    requires i < |s| && j < |s|
    ensures |r| == |s| && r[i] == s[j] && r[j] == s[i] && forall m :: 0 <= m < |s| && m != i && m != j ==> r[m] == s[m]
    ensures multiset(r) == multiset(s)
  {
    s[i := s[j]][j := s[i]]
  }

  // The place among the first n that the last of them changes with.
  ghost function Place(draw: nat -> nat, n: nat): (j: nat)
    requires n > 0
    ensures j < n
  {
    draw(n - 1) % n
  }

  // The first n places shuffled from the last of them down, each time with the
  // place drawn for it.
  ghost function Shuffled(s: seq<Session>, draw: nat -> nat, n: nat): seq<Session>
    requires n <= |s|
    decreases n
  {
    if n <= 1 then s
    else Shuffled(Exchanged(s, n - 1, Place(draw, n)), draw, n - 1)
  }

  // Python's in-place shuffle, drawing from an arbitrary source.
  method Shuffle(a: array<Session>, draw: nat -> nat)
    modifies a
    ensures a[..] == Shuffled(old(a[..]), draw, a.Length)
  {
    var i := a.Length;
    while i > 1
      invariant 0 <= i <= a.Length && Shuffled(a[..], draw, i) == Shuffled(old(a[..]), draw, a.Length)
    {
      i := i - 1;
      var j := draw(i) % (i + 1);
      ghost var before := a[..];
      a[i], a[j] := a[j], a[i];
      assert a[..] == Exchanged(before, i, j);
    }
  }

  // A shuffle loses nothing and leaves what is past n alone.
  lemma {:induction false} ShuffledKeeps(s: seq<Session>, draw: nat -> nat, n: nat)
    requires n <= |s|
    ensures |Shuffled(s, draw, n)| == |s| && multiset(Shuffled(s, draw, n)) == multiset(s)
    ensures Shuffled(s, draw, n)[n..] == s[n..]
    decreases n
  {
    if n > 1 {
      var i, j := n - 1, Place(draw, n);
      var now := Exchanged(s, i, j);
      ShuffledKeeps(now, draw, i);
      assert now[n..] == s[n..] && Shuffled(now, draw, i)[n..] == Shuffled(now, draw, i)[i..][1..];
    }
  }

  lemma {:induction false} SameDraws(s: seq<Session>, draw: nat -> nat, other: nat -> nat, n: nat)
    requires n <= |s| && forall i: nat :: i < n ==> draw(i) == other(i)
    ensures Shuffled(s, draw, n) == Shuffled(s, other, n)
    decreases n
  {
    if n > 1 {
      var i, j := n - 1, Place(draw, n);
      SameDraws(Exchanged(s, i, j), draw, other, i);
    }
  }

  // And it favours nothing outright: every order of the first n is some draw's.
  lemma {:induction false} EveryOrderIsDrawn(s: seq<Session>, t: seq<Session>, n: nat) returns (draw: nat -> nat)
    requires |s| == |t| && n <= |s| && multiset(s) == multiset(t) && s[n..] == t[n..]
    ensures Shuffled(s, draw, n) == t
    decreases n
  {
    draw := _ => 0;
    if n <= 1 {
      AllButOneAlike(s, t, n);
    } else {
      var i := n - 1;
      var j := FirstPartHas(s, t, n, t[i]);
      OneMorePlace(s, t, n, j);
      var others := EveryOrderIsDrawn(Exchanged(s, i, j), t, i);
      draw := DrawnFirst(s, t, n, j, others);
    }
  }

  lemma OneMorePlace(s: seq<Session>, t: seq<Session>, n: nat, j: nat)
    requires |s| == |t| && 0 < n <= |s| && j < n && s[j] == t[n - 1] && s[n..] == t[n..]
    ensures Exchanged(s, n - 1, j)[n - 1..] == t[n - 1..]
  {
    var now := Exchanged(s, n - 1, j);
    assert now[n - 1..] == [now[n - 1]] + s[n..] && t[n - 1..] == [t[n - 1]] + t[n..];
  }

  lemma Places(draw: nat -> nat, n: nat, j: nat)
    requires j < n && draw(n - 1) == j
    ensures Place(draw, n) == j
  {
  }

  lemma DrawnFirst(s: seq<Session>, t: seq<Session>, n: nat, j: nat, others: nat -> nat) returns (draw: nat -> nat)
    requires 1 < n <= |s| && j < n && Shuffled(Exchanged(s, n - 1, j), others, n - 1) == t
    ensures Shuffled(s, draw, n) == t
  {
    draw := m => if m == n - 1 then j else others(m);
    Places(draw, n, j);
    SameDraws(Exchanged(s, n - 1, j), draw, others, n - 1);
    OneExchange(s, draw, n);
  }

  lemma OneExchange(s: seq<Session>, draw: nat -> nat, n: nat)
    requires 1 < n <= |s|
    ensures Shuffled(s, draw, n) == Shuffled(Exchanged(s, n - 1, Place(draw, n)), draw, n - 1)
  {
  }

  lemma AllButOneAlike(s: seq<Session>, t: seq<Session>, n: nat)
    requires |s| == |t| && n <= |s| && n <= 1 && multiset(s) == multiset(t) && s[n..] == t[n..]
    ensures s == t
  {
    if n == 1 {
      var j := FirstPartHas(s, t, n, t[0]);
      assert s == [s[0]] + s[1..] && t == [t[0]] + t[1..];
    }
  }

  lemma FirstPartHas(s: seq<Session>, t: seq<Session>, n: nat, x: Session) returns (j: nat)
    requires |s| == |t| && 0 < n <= |s| && multiset(s) == multiset(t) && s[n..] == t[n..] && t[n - 1] == x
    ensures j < n && s[j] == x
  {
    assert s == s[..n] + s[n..] && t == t[..n] + t[n..];
    assert multiset(s[..n]) == multiset(s) - multiset(s[n..]) == multiset(t) - multiset(t[n..]) == multiset(t[..n]);
    assert t[..n][n - 1] == x;
    assert x in multiset(t[..n]) && x in multiset(s[..n]);
    j :| 0 <= j < n && s[j] == x;
  }

  // Fold number of each name, dealt round like cards.
  ghost predicate Dealt(names: seq<Session>, k: nat, assignment: map<Session, nat>)
  {
    && k > 0 && Distinct(names) && assignment.Keys == (set s | s in names)
    && forall i :: 0 <= i < |names| ==> assignment[names[i]] == i % k
  }

  ghost function FoldOf(samples: seq<Sample>, assignment: map<Session, nat>, f: nat): Fold
  {
    Fold(Picked(samples, s => s !in assignment || assignment[s] != f), Picked(samples, s => s in assignment && assignment[s] == f))
  }

  method Deal(names: seq<Session>, k: nat) returns (assignment: map<Session, nat>)
    requires k > 0 && Distinct(names)
    ensures Dealt(names, k, assignment)
  {
    assignment := map[];
    for i := 0 to |names|
      invariant Dealt(names[..i], k, assignment)
    {
      assert names[..i + 1] == names[..i] + [names[i]];
      assert names[i] !in names[..i];
      OneMoreDealt(names[..i], k, assignment, names[i]);
      assignment := assignment[names[i] := i % k];
    }
    assert names[..|names|] == names;
  }

  lemma OneMoreDealt(names: seq<Session>, k: nat, assignment: map<Session, nat>, name: Session)
    requires Dealt(names, k, assignment) && name !in names
    ensures Dealt(names + [name], k, assignment[name := |names| % k])
  {
    forall i | 0 <= i < |names| ensures names[i] != name {
      assert names[i] in names;
    }
  }

  method Split(samples: seq<Sample>, assignment: map<Session, nat>, f: nat) returns (fold: Fold)
    requires SessionsOf(samples) <= assignment.Keys
    ensures fold == FoldOf(samples, assignment, f)
  {
    var train: seq<Sample>, eval: seq<Sample> := [], [];
    for i := 0 to |samples|
      invariant Fold(train, eval) == FoldOf(samples[..i], assignment, f)
    {
      assert samples[..i + 1][..i] == samples[..i];
      assert samples[i].session in SessionsOf(samples);
      if assignment[samples[i].session] == f {
        eval := eval + [samples[i]];
      } else {
        train := train + [samples[i]];
      }
    }
    assert samples[..|samples|] == samples;
    return Fold(train, eval);
  }

  // The names of all sessions, sorted and then shuffled, dealt round to k folds.
  ghost predicate AssignedBy(all: set<Session>, k: nat, draw: nat -> nat, names: seq<Session>, assignment: map<Session, nat>)
  {
    && Dealt(names, k, assignment) && assignment.Keys == all && |names| == |all|
    && DrawnFrom(all, draw, names)
  }

  ghost predicate DrawnFrom(all: set<Session>, draw: nat -> nat, names: seq<Session>)
  {
    exists sorted :: Lists(sorted, all) && names == Shuffled(sorted, draw, |sorted|)
  }

  ghost predicate Lists(sorted: seq<Session>, all: set<Session>)
  {
    Alphabetical(sorted) && forall x :: x in sorted <==> x in all
  }

  // K folds split by session, never by sample, whatever the shuffle draws.
  method SessionGroupedFolds(samples: seq<Sample>, k: int, draw: nat -> nat)
    returns (r: Result<seq<Fold>, FoldError>, ghost names: seq<Session>, ghost assignment: map<Session, nat>)
    ensures r == Refused(TooSmallK) <==> k < 2
    ensures r == Refused(TooFewSessions) <==> k >= 2 && |SessionsOf(samples)| < k
    ensures r.Ok? ==> k >= 2 && AssignedBy(SessionsOf(samples), k, draw, names, assignment) && |names| >= k
    ensures r.Ok? ==> |r.value| == k && forall f :: 0 <= f < k ==> r.value[f] == FoldOf(samples, assignment, f)
  {
    names, assignment := [], map[];
    if k < 2 {
      return Refused(TooSmallK), names, assignment;
    }
    var grouped := Sessions(samples);
    if |grouped.Keys| < k {
      return Refused(TooFewSessions), names, assignment;
    }
    var dealt;
    dealt, names := Assign(grouped.Keys, k, draw);
    assignment := dealt;
    var folds := SplitAll(samples, dealt, k);
    r := Ok(folds);
  }

  method Assign(all: set<Session>, k: nat, draw: nat -> nat) returns (assignment: map<Session, nat>, ghost names: seq<Session>)
    requires k > 0
    ensures AssignedBy(all, k, draw, names, assignment)
  {
    var sorted := SortNames(all);
    var shuffled := new Session[|sorted|](i requires 0 <= i < |sorted| => sorted[i]);
    assert shuffled[..] == sorted;
    Shuffle(shuffled, draw);
    names := shuffled[..];
    ShuffledKeeps(sorted, draw, |sorted|);
    NoneTwice(sorted);
    Rearranged(sorted, names);
    assert Lists(sorted, all);
    assignment := Deal(shuffled[..], k);
  }

  lemma NoneTwice(names: seq<Session>)
    requires Alphabetical(names)
    ensures Distinct(names)
  {
    forall i, j | 0 <= i < j < |names| ensures names[i] != names[j] {
      OneWayOnly(names[i], names[j]);
    }
  }

  lemma OneDrawnOrder(all: set<Session>, draw: nat -> nat, names: seq<Session>, names': seq<Session>)
    requires DrawnFrom(all, draw, names) && DrawnFrom(all, draw, names')
    ensures names == names'
  {
    var a :| Lists(a, all) && names == Shuffled(a, draw, |a|);
    var b :| Lists(b, all) && names' == Shuffled(b, draw, |b|);
    OneOrder(a, b);
  }

  lemma OneDeal(names: seq<Session>, k: nat, assignment: map<Session, nat>, assignment': map<Session, nat>)
    requires Dealt(names, k, assignment) && Dealt(names, k, assignment')
    ensures assignment == assignment'
  {
    forall s | s in assignment ensures assignment[s] == assignment'[s] {
      assert s in (set x | x in names);
      var i :| 0 <= i < |names| && names[i] == s;
    }
  }

  // The seed decides: over the same sessions, in whatever order and with whatever
  // samples, one source of draws deals every session to one fold.
  lemma OneSourceOneAssignment(all: set<Session>, k: nat, draw: nat -> nat, names: seq<Session>, assignment: map<Session, nat>,
                               names': seq<Session>, assignment': map<Session, nat>)
    requires AssignedBy(all, k, draw, names, assignment) && AssignedBy(all, k, draw, names', assignment')
    ensures names == names' && assignment == assignment'
  {
    OneDrawnOrder(all, draw, names, names');
    OneDeal(names, k, assignment, assignment');
  }

  method SplitAll(samples: seq<Sample>, assignment: map<Session, nat>, k: nat) returns (folds: seq<Fold>)
    requires SessionsOf(samples) <= assignment.Keys
    ensures |folds| == k && forall f :: 0 <= f < k ==> folds[f] == FoldOf(samples, assignment, f)
  {
    folds := [];
    for f := 0 to k
      invariant |folds| == f && forall g :: 0 <= g < f ==> folds[g] == FoldOf(samples, assignment, g)
    {
      var fold := Split(samples, assignment, f);
      folds := folds + [fold];
    }
  }

  // -- what such folds are -------------------------------------------------------

  ghost predicate FoldsOf(samples: seq<Sample>, k: nat, names: seq<Session>, assignment: map<Session, nat>)
  {
    2 <= k <= |names| && Dealt(names, k, assignment) && assignment.Keys == SessionsOf(samples)
  }

  lemma {:induction false} PickedAre(samples: seq<Sample>, want: Session -> bool)
    ensures forall x :: x in Picked(samples, want) <==> x in samples && want(x.session)
  {
    if samples != [] {
      PickedAre(samples[..|samples| - 1], want);
      assert samples == samples[..|samples| - 1] + [samples[|samples| - 1]];
    }
  }

  lemma PickedSessions(samples: seq<Sample>, want: Session -> bool)
    ensures SessionsOf(Picked(samples, want)) == set x | x in SessionsOf(samples) && want(x)
  {
    var picked := Picked(samples, want);
    PickedAre(samples, want);
    forall x | x in SessionsOf(samples) && want(x) ensures x in SessionsOf(picked) {
      var i :| 0 <= i < |samples| && samples[i].session == x;
      assert samples[i] in picked;
    }
    forall i | 0 <= i < |picked| ensures picked[i].session in SessionsOf(samples) && want(picked[i].session) {
      assert picked[i] in samples;
    }
  }

  lemma FoldSessions(samples: seq<Sample>, k: nat, names: seq<Session>, assignment: map<Session, nat>, f: nat)
    requires FoldsOf(samples, k, names, assignment) && f < k
    ensures var fold := FoldOf(samples, assignment, f);
            && SessionsOf(fold.eval) == (set s | s in names && assignment[s] == f)
            && SessionsOf(fold.train) == (set s | s in names && assignment[s] != f)
  {
    PickedSessions(samples, s => s in assignment && assignment[s] == f);
    PickedSessions(samples, s => s !in assignment || assignment[s] != f);
  }

  // Every fold splits the samples in two.
  lemma {:induction false} EachFoldIsASplit(samples: seq<Sample>, assignment: map<Session, nat>, f: nat)
    ensures var fold := FoldOf(samples, assignment, f); multiset(fold.train) + multiset(fold.eval) == multiset(samples)
  {
    if samples != [] {
      EachFoldIsASplit(samples[..|samples| - 1], assignment, f);
      assert samples == samples[..|samples| - 1] + [samples[|samples| - 1]];
    }
  }

  ghost function Evaluated(folds: seq<Fold>): multiset<Sample>
  {
    if folds == [] then multiset{}
    else Evaluated(folds[..|folds| - 1]) + multiset(folds[|folds| - 1].eval)
  }

  lemma {:induction false} OneMoreEvaluated(folds: seq<Fold>, f: nat, fold: Fold, x: Sample)
    requires f < |folds| && fold.eval == folds[f].eval + [x]
    ensures Evaluated(folds[f := fold]) == Evaluated(folds) + multiset{x}
  {
    var n, now := |folds| - 1, folds[f := fold];
    if f < n {
      OneMoreEvaluated(folds[..n], f, fold, x);
      assert now[..n] == folds[..n][f := fold] && now[n] == folds[n];
    } else {
      assert multiset(fold.eval) == multiset(folds[n].eval) + multiset{x};
      assert now[..n] == folds[..n] && now[n] == fold;
    }
  }

  lemma {:induction false} SameEvaluated(folds: seq<Fold>, others: seq<Fold>)
    requires |folds| == |others| && forall f :: 0 <= f < |folds| ==> folds[f].eval == others[f].eval
    ensures Evaluated(folds) == Evaluated(others)
  {
    if folds != [] {
      SameEvaluated(folds[..|folds| - 1], others[..|others| - 1]);
    }
  }

  ghost predicate AreFolds(samples: seq<Sample>, assignment: map<Session, nat>, folds: seq<Fold>)
  {
    && (forall x :: x in samples ==> x.session in assignment && assignment[x.session] < |folds|)
    && forall f :: 0 <= f < |folds| ==> folds[f] == FoldOf(samples, assignment, f)
  }

  // The evaluation sides of all folds together are the samples, each as often as
  // it was given.
  lemma {:induction false} EachSampleEvaluatedOnce(samples: seq<Sample>, assignment: map<Session, nat>, folds: seq<Fold>)
    requires AreFolds(samples, assignment, folds)
    ensures Evaluated(folds) == multiset(samples)
    decreases |samples|
  {
    if samples == [] {
      NothingEvaluated(folds);
    } else {
      var before, x := samples[..|samples| - 1], samples[|samples| - 1];
      assert samples == before + [x] && x in samples;
      var earlier := seq(|folds|, f requires f >= 0 => FoldOf(before, assignment, f));
      EachSampleEvaluatedOnce(before, assignment, earlier);
      OneSampleMore(before, x, samples, assignment, earlier, folds);
      assert multiset(samples) == multiset(before) + multiset{x};
    }
  }

  lemma OneSampleMore(before: seq<Sample>, x: Sample, samples: seq<Sample>, assignment: map<Session, nat>,
                      earlier: seq<Fold>, folds: seq<Fold>)
    requires samples == before + [x] && |earlier| == |folds|
    requires AreFolds(before, assignment, earlier) && AreFolds(samples, assignment, folds)
    ensures Evaluated(folds) == Evaluated(earlier) + multiset{x}
  {
    assert x in samples && samples[..|before|] == before;
    var f := assignment[x.session];
    OneMoreEvaluated(earlier, f, folds[f], x);
    forall g | 0 <= g < |folds| ensures folds[g].eval == earlier[f := folds[f]][g].eval {
    }
    SameEvaluated(folds, earlier[f := folds[f]]);
  }

  lemma {:induction false} NothingEvaluated(folds: seq<Fold>)
    requires forall f :: 0 <= f < |folds| ==> folds[f].eval == []
    ensures Evaluated(folds) == multiset{}
  {
    if folds != [] {
      NothingEvaluated(folds[..|folds| - 1]);
    }
  }

  // -- how large they are --------------------------------------------------------

  ghost function Share(names: seq<Session>, assignment: map<Session, nat>, f: nat): set<Session>
  {
    set s | s in names && s in assignment && assignment[s] == f
  }

  lemma DivisionStep(n: nat, k: nat)
    requires k > 0
    ensures (n + 1) / k == n / k + (if n % k == k - 1 then 1 else 0)
    ensures (n + 1) % k == if n % k == k - 1 then 0 else n % k + 1
  {
    var q, r := n / k, n % k;
    assert n == k * q + r;
    if r == k - 1 {
      assert n + 1 == k * (q + 1);
      Quotient(n + 1, k, q + 1, 0);
    } else {
      Quotient(n + 1, k, q, r + 1);
    }
  }

  lemma Quotient(n: nat, k: nat, q: nat, r: nat)
    requires n == k * q + r && r < k
    ensures n / k == q && n % k == r
  {
    Multiples(k, q, n / k);
    Multiples(k, n / k, q);
  }

  lemma Multiples(k: nat, a: nat, b: nat)
    ensures a < b ==> k * a + k <= k * b
  {
    if a < b {
      var d := b - a - 1;
      assert k * b == k * a + k * d + k;
      assert k * d >= 0;
    }
  }

  // Fold f gets every k-th name, the first folds one more when it does not come out even.
  lemma {:induction false} ShareSize(names: seq<Session>, k: nat, assignment: map<Session, nat>, f: nat)
    requires Dealt(names, k, assignment) && f < k
    ensures |Share(names, assignment, f)| == |names| / k + (if f < |names| % k then 1 else 0)
  {
    if names == [] {
      assert Share(names, assignment, f) == {};
      Quotient(0, k, 0, 0);
    } else {
      var n := |names| - 1;
      var before, last := names[..n], names[n];
      var earlier := map s | s in assignment && s != last :: assignment[s];
      DealtBefore(names, before, last, k, assignment, earlier);
      ShareSize(before, k, earlier, f);
      DivisionStep(n, k);
      ShareBefore(names, before, last, k, assignment, earlier, f);
    }
  }

  lemma DealtBefore(names: seq<Session>, before: seq<Session>, last: Session, k: nat,
                    assignment: map<Session, nat>, earlier: map<Session, nat>)
    requires Dealt(names, k, assignment) && names == before + [last]
    requires earlier == map s | s in assignment && s != last :: assignment[s]
    ensures last !in before && Dealt(before, k, earlier)
  {
    forall i | 0 <= i < |before| ensures before[i] == names[i] && before[i] != last {
    }
    assert names[|before|] == last;
  }

  lemma ShareBefore(names: seq<Session>, before: seq<Session>, last: Session, k: nat,
                    assignment: map<Session, nat>, earlier: map<Session, nat>, f: nat)
    requires Dealt(names, k, assignment) && names == before + [last] && last !in before
    requires earlier == map s | s in assignment && s != last :: assignment[s]
    ensures |Share(names, assignment, f)| == |Share(before, earlier, f)| + if |before| % k == f then 1 else 0
  {
    assert names[|before|] == last && assignment[last] == |before| % k;
    assert Share(names, assignment, f) == Share(before, earlier, f) + if |before| % k == f then {last} else {};
  }

  // Sessions per fold differ by at most one, and neither side of a fold is empty.
  lemma FoldsAreEven(samples: seq<Sample>, k: nat, names: seq<Session>, assignment: map<Session, nat>, f: nat, g: nat)
    requires FoldsOf(samples, k, names, assignment) && f < k && g < k
    ensures var a, b := FoldOf(samples, assignment, f), FoldOf(samples, assignment, g);
            && |SessionsOf(a.eval)| <= |SessionsOf(b.eval)| + 1
            && a.eval != [] && a.train != []
  {
    EvalShare(samples, k, names, assignment, f);
    EvalShare(samples, k, names, assignment, g);
    AtLeastOne(|names|, k);
    var other := if f == 0 then 1 else 0;
    EvalShare(samples, k, names, assignment, other);
    FoldSessions(samples, k, names, assignment, f);
    var s :| s in Share(names, assignment, other);
    assert s in SessionsOf(FoldOf(samples, assignment, f).train);
  }

  lemma AtLeastOne(n: nat, k: nat)
    requires 0 < k <= n
    ensures n / k >= 1
  {
    Multiples(k, n / k, 1);
  }

  lemma EvalShare(samples: seq<Sample>, k: nat, names: seq<Session>, assignment: map<Session, nat>, f: nat)
    requires FoldsOf(samples, k, names, assignment) && f < k
    ensures SessionsOf(FoldOf(samples, assignment, f).eval) == Share(names, assignment, f)
    ensures |SessionsOf(FoldOf(samples, assignment, f).eval)| == |names| / k + (if f < |names| % k then 1 else 0)
  {
    FoldSessions(samples, k, names, assignment, f);
    ShareSize(names, k, assignment, f);
    assert SessionsOf(FoldOf(samples, assignment, f).eval) == Share(names, assignment, f);
  }

  // -- gate G-09 -----------------------------------------------------------------

  // The group ids a run recorded for each side, if it recorded a collection.
  datatype RunGroups = RunGroups(seed: int, train: Option<set<string>>, eval: Option<set<string>>)

  datatype GroupVerdict = NotChecked | Undeclared(seeds: set<int>) | Leak(groups: set<string>) | Disjoint {
    predicate Passed() { NotChecked? || Disjoint? }
    predicate Blocking() { !NotChecked? }
  }

  predicate HasGroups(r: RunGroups)
  {
    r.train.Some? && r.eval.Some? && r.train.value != {} && r.eval.value != {}
  }

  method GateNoGroupLeakage(runs: seq<RunGroups>, declared: bool) returns (v: GroupVerdict)
    ensures v.NotChecked? <==> !declared
    ensures declared ==> (v.Undeclared? <==> exists i :: 0 <= i < |runs| && !Declares(runs[i]))
    ensures v.Undeclared? ==> v.seeds == set i | 0 <= i < |runs| && !Declares(runs[i]) :: runs[i].seed
    ensures v.Leak? ==> v.groups != {} && forall g :: g in v.groups <==>
              exists i :: 0 <= i < |runs| && g in runs[i].train.GetOr({}) && g in runs[i].eval.GetOr({})
    ensures v.Leak? ==> forall i :: 0 <= i < |runs| ==> Declares(runs[i])
    ensures v.Disjoint? <==> declared && forall i :: 0 <= i < |runs| ==> PassesAlone(runs[i])
  {
    if !declared {
      return NotChecked;
    }
    var shared: set<string>, undeclared: set<int> := {}, {};
    for i := 0 to |runs|
      invariant undeclared == set j | 0 <= j < i && !HasGroups(runs[j]) :: runs[j].seed
      invariant forall g :: g in shared <==> exists j :: 0 <= j < i && SharedBy(runs[j], g)
    {
      if !HasGroups(runs[i]) {
        undeclared := undeclared + {runs[i].seed};
      } else {
        shared := shared + (runs[i].train.value * runs[i].eval.value);
      }
    }
    assert forall i :: 0 <= i < |runs| && !HasGroups(runs[i]) ==> runs[i].seed in undeclared;
    if undeclared != {} {
      return Undeclared(undeclared);
    }
    if shared != {} {
      assert forall i :: 0 <= i < |runs| && Declares(runs[i]) ==>
          forall g :: g in runs[i].train.value && g in runs[i].eval.value ==> g in shared;
      return Leak(shared);
    }
    forall i | 0 <= i < |runs| ensures PassesAlone(runs[i]) {
      assert HasGroups(runs[i]);
      forall g | g in runs[i].train.value ensures g !in runs[i].eval.value {
        assert SharedBy(runs[i], g) ==> g in shared;
      }
    }
    return Disjoint;
  }

  // Both sides were recorded, and neither is empty.
  ghost predicate Declares(r: RunGroups)
  {
    r.train.Some? && r.eval.Some? && r.train.value != {} && r.eval.value != {}
  }

  ghost predicate SharedBy(r: RunGroups, g: string)
  {
    Declares(r) && g in r.train.value && g in r.eval.value
  }

  ghost predicate PassesAlone(r: RunGroups)
  {
    Declares(r) && r.train.value !! r.eval.value
  }

  // What a run over a fold records.
  ghost function RecordOf(seed: int, fold: Fold): RunGroups
  {
    RunGroups(seed, Some(SessionsOf(fold.train)), Some(SessionsOf(fold.eval)))
  }

  // No session is on both sides of a fold, so the gate passes on what it records.
  lemma FoldsPassTheGate(samples: seq<Sample>, k: nat, names: seq<Session>, assignment: map<Session, nat>, f: nat, seed: int)
    requires FoldsOf(samples, k, names, assignment) && f < k
    ensures PassesAlone(RecordOf(seed, FoldOf(samples, assignment, f)))
  {
    FoldSessions(samples, k, names, assignment, f);
    FoldsAreEven(samples, k, names, assignment, f, f);
    var fold := FoldOf(samples, assignment, f);
    assert fold.train[0].session in SessionsOf(fold.train) && fold.eval[0].session in SessionsOf(fold.eval);
  }
}
