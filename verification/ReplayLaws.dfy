// What the replay of a log means, row by row: which row each field of a
// reservation and of a job was read from.
module ReplayLaws {
  import opened Prelude
  import opened RegistryLog

  // What a row can be about.
  datatype Matter = Reserving(key: Key) | Changing(key: Key) | Binding(key: Key) | Closing(handle: Handle)

  ghost predicate About(e: Event, m: Matter)
  {
    match m
    case Reserving(key) => e.Reserved? && e.key == key
    case Changing(key) => (e.Bound? || e.Released? || e.Orphaned? || e.Abandoned?) && e.key == key
    case Binding(key) => e.Bound? && e.key == key
    case Closing(handle) => (e.Resolved? || e.Lost?) && e.handle == handle
  }

  // The newest of the rows about it from `since` on.
  ghost predicate Newest(rows: seq<Event>, since: nat, i: int, m: Matter)
  {
    since <= i < |rows| && About(rows[i], m) && forall j :: i < j < |rows| ==> !About(rows[j], m)
  }

  ghost predicate NoneSince(rows: seq<Event>, since: nat, m: Matter)
  {
    forall j :: since <= j < |rows| ==> !About(rows[j], m)
  }

  lemma NewestNow(rows: seq<Event>, e: Event, since: nat, m: Matter)
    requires since <= |rows|
    ensures About(e, m) ==> forall i :: Newest(rows + [e], since, i, m) <==> i == |rows|
    ensures !About(e, m) ==> forall i :: Newest(rows + [e], since, i, m) <==> Newest(rows, since, i, m)
    ensures NoneSince(rows + [e], since, m) <==> NoneSince(rows, since, m) && !About(e, m)
  {
    var all := rows + [e];
    assert all[|rows|] == e && forall j :: 0 <= j < |rows| ==> all[j] == rows[j];
  }

  // ---- reservations ----------------------------------------------------------

  ghost predicate IntentOf(e: Event, r: Reservation)
  {
    && e.Reserved? && r.ticket == e.ticket && r.reservedAt == e.at && r.deadlineAt == e.deadlineAt && r.cost == e.cost
    && r.command == if e.command == [] then None else Some(e.command)
  }

  ghost predicate StateOfRow(e: Event, state: ReservationState)
  {
    && (e.Bound? ==> state == BOUND) && (e.Released? ==> state == RELEASED)
    && (e.Orphaned? ==> state == ORPHANED) && (e.Abandoned? ==> state == ABANDONED)
  }

  // Its state is what the newest row about it since row i says.
  ghost predicate StateSince(rows: seq<Event>, i: nat, key: Key, r: Reservation)
  {
    && (NoneSince(rows, i, Changing(key)) ==> r.state == RESERVED)
    && forall j :: Newest(rows, i, j, Changing(key)) ==> StateOfRow(rows[j], r.state)
  }

  // Its handle is what the newest binding since row i says.
  ghost predicate HandleSince(rows: seq<Event>, i: nat, key: Key, r: Reservation)
  {
    && (NoneSince(rows, i, Binding(key)) ==> r.handle.None?)
    && forall j :: Newest(rows, i, j, Binding(key)) ==> r.handle == Some(rows[j].handle)
  }

  // A reservation was made by row i, the newest for its key.
  ghost predicate ReadFrom(rows: seq<Event>, i: int, key: Key, r: Reservation)
  {
    Newest(rows, 0, i, Reserving(key)) && IntentOf(rows[i], r) && StateSince(rows, i + 1, key, r) && HandleSince(rows, i + 1, key, r)
  }

  lemma StateOneMore(rows: seq<Event>, e: Event, i: nat, key: Key, r: Reservation, r': Reservation)
    requires i <= |rows| && StateSince(rows, i, key, r)
    requires if About(e, Changing(key)) then StateOfRow(e, r'.state) else r'.state == r.state
    ensures StateSince(rows + [e], i, key, r')
  {
    NewestNow(rows, e, i, Changing(key));
  }

  lemma HandleOneMore(rows: seq<Event>, e: Event, i: nat, key: Key, r: Reservation, r': Reservation)
    requires i <= |rows| && HandleSince(rows, i, key, r)
    requires r'.handle == if About(e, Binding(key)) then Some(e.handle) else r.handle
    ensures HandleSince(rows + [e], i, key, r')
  {
    NewestNow(rows, e, i, Binding(key));
  }

  lemma ReadFromOneMore(rows: seq<Event>, e: Event, i: int, key: Key)
    requires key in Replay(rows).held && ReadFrom(rows, i, key, Replay(rows).held[key]) && !About(e, Reserving(key))
    ensures key in ReplayStep(Replay(rows), e).held
    ensures ReadFrom(rows + [e], i, key, ReplayStep(Replay(rows), e).held[key])
  {
    var r, r' := Replay(rows).held[key], ReplayStep(Replay(rows), e).held[key];
    NewestNow(rows, e, 0, Reserving(key));
    StateOneMore(rows, e, i + 1, key, r, r');
    HandleOneMore(rows, e, i + 1, key, r, r');
  }

  lemma NothingBeyond(rows: seq<Event>, m: Matter)
    ensures NoneSince(rows, |rows|, m) && forall i :: !Newest(rows, |rows|, i, m)
  {
  }

  lemma JustReserved(all: seq<Event>, n: nat, r: Reservation)
    requires |all| == n + 1 && IntentOf(all[n], r) && r.state == RESERVED && r.handle.None?
    ensures ReadFrom(all, n, all[n].key, r)
  {
    NothingBeyond(all, Changing(all[n].key));
    NothingBeyond(all, Binding(all[n].key));
    assert StateSince(all, n + 1, all[n].key, r) && HandleSince(all, n + 1, all[n].key, r);
  }

  lemma ReadFromNew(rows: seq<Event>, e: Event)
    requires e.Reserved?
    ensures ReadFrom(rows + [e], |rows|, e.key, ReplayStep(Replay(rows), e).held[e.key])
  {
    assert (rows + [e])[|rows|] == e;
    JustReserved(rows + [e], |rows|, ReplayStep(Replay(rows), e).held[e.key]);
  }

  // Exactly the keys that were ever reserved are held, each as the log says.
  lemma {:induction false} HeldMeans(rows: seq<Event>, key: Key)
    ensures key in Replay(rows).held <==> exists i :: 0 <= i < |rows| && About(rows[i], Reserving(key))
    ensures key in Replay(rows).held ==> exists i :: ReadFrom(rows, i, key, Replay(rows).held[key])
  {
    if rows != [] {
      var before, e := rows[..|rows| - 1], rows[|rows| - 1];
      assert rows == before + [e];
      HeldMeans(before, key);
      if About(e, Reserving(key)) {
        ReadFromNew(before, e);
      } else if key in Replay(before).held {
        var i :| ReadFrom(before, i, key, Replay(before).held[key]);
        ReadFromOneMore(before, e, i, key);
        assert About(rows[i], Reserving(key));
      }
    }
  }

  // ---- jobs ------------------------------------------------------------------

  // Row i gave the handle a job: in the older shape, or by binding a reserved key.
  ghost predicate Introduces(rows: seq<Event>, i: int, h: Handle)
  {
    0 <= i < |rows| && (rows[i].Submitted? || rows[i].Bound?) && rows[i].handle == h &&
    (rows[i].Bound? ==> exists m :: 0 <= m < i && About(rows[m], Reserving(rows[i].key)))
  }

  ghost predicate IntroducedBy(rows: seq<Event>, i: int, h: Handle)
  {
    Introduces(rows, i, h) && forall j :: i < j < |rows| ==> !Introduces(rows, j, h)
  }

  ghost predicate JobIntentOf(e: Event, j: Job)
  {
    && e.Reserved? && j.ticket == e.ticket && j.submittedAt == e.at && j.deadlineAt == e.deadlineAt && j.cost == e.cost
    && j.requested == if e.command == [] then None else Some(e.command)
  }

  // What the introducing row says of the job, itself or through the newest
  // reservation of its key before it.
  ghost predicate Introduced(before: seq<Event>, e: Event, j: Job)
  {
    if e.Submitted? then
      && j.ticket == e.ticket && j.submittedAt == e.at && j.deadlineAt == e.deadlineAt
      && j.cost == e.cost && j.requested.None?
    else e.Bound? && exists m :: Newest(before, 0, m, Reserving(e.key)) && JobIntentOf(before[m], j)
  }

  ghost predicate ClosedAs(e: Event, j: Job)
  {
    && (e.Resolved? ==> j.state == RESOLVED && j.artifact == Some(e.artifact) && j.done == e.done)
    && (e.Lost? ==> j.state == LOST && j.artifact.None? && j.done.None?)
  }

  // Open unless a row since row i closed it, and then as the newest of them says.
  ghost predicate ClosedSince(rows: seq<Event>, i: nat, h: Handle, j: Job)
  {
    && (NoneSince(rows, i, Closing(h)) ==> j.state == SUBMITTED && j.artifact.None? && j.done.None?)
    && forall m :: Newest(rows, i, m, Closing(h)) ==> ClosedAs(rows[m], j)
  }

  ghost predicate JobReadFrom(rows: seq<Event>, i: int, h: Handle, j: Job)
  {
    IntroducedBy(rows, i, h) && Introduced(rows[..i], rows[i], j) && ClosedSince(rows, i + 1, h, j)
  }

  lemma IntroducesBefore(rows: seq<Event>, e: Event, i: int, h: Handle)
    requires 0 <= i < |rows|
    ensures Introduces(rows + [e], i, h) <==> Introduces(rows, i, h)
  {
    var all := rows + [e];
    assert forall m :: 0 <= m <= i ==> all[m] == rows[m];
  }

  lemma IntroducesLast(rows: seq<Event>, e: Event, h: Handle)
    ensures Introduces(rows + [e], |rows|, h) <==>
              (e.Submitted? && e.handle == h) || (e.Bound? && e.handle == h && e.key in Replay(rows).held)
  {
    var all := rows + [e];
    assert all[|rows|] == e && forall m :: 0 <= m < |rows| ==> all[m] == rows[m];
    if e.Bound? {
      HeldMeans(rows, e.key);
    }
  }

  lemma StillIntroduced(rows: seq<Event>, e: Event, i: int, h: Handle)
    requires IntroducedBy(rows, i, h) && !Introduces(rows + [e], |rows|, h)
    ensures IntroducedBy(rows + [e], i, h) && (rows + [e])[..i] == rows[..i] && (rows + [e])[i] == rows[i]
  {
    IntroducesBefore(rows, e, i, h);
    forall j | i < j < |rows| + 1 ensures !Introduces(rows + [e], j, h) {
      if j < |rows| {
        IntroducesBefore(rows, e, j, h);
      }
    }
  }

  lemma ClosedOneMore(rows: seq<Event>, e: Event, i: nat, h: Handle, j: Job, j': Job)
    requires i <= |rows| && ClosedSince(rows, i, h, j)
    requires if About(e, Closing(h)) then ClosedAs(e, j') else j' == j
    ensures ClosedSince(rows + [e], i, h, j')
  {
    NewestNow(rows, e, i, Closing(h));
  }

  lemma JobReadOneMore(rows: seq<Event>, e: Event, i: int, h: Handle)
    requires h in Replay(rows).jobs && JobReadFrom(rows, i, h, Replay(rows).jobs[h]) && !Introduces(rows + [e], |rows|, h)
    ensures h in ReplayStep(Replay(rows), e).jobs
    ensures JobReadFrom(rows + [e], i, h, ReplayStep(Replay(rows), e).jobs[h])
  {
    var j, j' := Replay(rows).jobs[h], ReplayStep(Replay(rows), e).jobs[h];
    IntroducesLast(rows, e, h);
    StillIntroduced(rows, e, i, h);
    ClosedOneMore(rows, e, i + 1, h, j, j');
  }

  lemma JobReadNew(rows: seq<Event>, e: Event, h: Handle)
    requires Introduces(rows + [e], |rows|, h)
    ensures h in ReplayStep(Replay(rows), e).jobs && JobReadFrom(rows + [e], |rows|, h, ReplayStep(Replay(rows), e).jobs[h])
  {
    IntroducesLast(rows, e, h);
    NewJobIntroduced(rows, e, h);
    assert (rows + [e])[..|rows|] == rows && (rows + [e])[|rows|] == e;
    assert NoneSince(rows + [e], |rows| + 1, Closing(h));
    assert ClosedSince(rows + [e], |rows| + 1, h, ReplayStep(Replay(rows), e).jobs[h]);
  }

  lemma NewJobIntroduced(rows: seq<Event>, e: Event, h: Handle)
    requires (e.Submitted? && e.handle == h) || (e.Bound? && e.handle == h && e.key in Replay(rows).held)
    ensures h in ReplayStep(Replay(rows), e).jobs
    ensures var j := ReplayStep(Replay(rows), e).jobs[h];
            Introduced(rows, e, j) && j.state == SUBMITTED && j.artifact.None? && j.done.None?
  {
    if e.Bound? {
      HeldMeans(rows, e.key);
      var m :| ReadFrom(rows, m, e.key, Replay(rows).held[e.key]);
      assert JobIntentOf(rows[m], ReplayStep(Replay(rows), e).jobs[h]);
    }
  }

  // Exactly the handles that were ever given a job have one, each as the log says:
  // the newest row that gave it, and the newest that closed it since.
  lemma {:induction false} JobsMean(rows: seq<Event>, h: Handle)
    ensures h in Replay(rows).jobs <==> exists i :: Introduces(rows, i, h)
    ensures h in Replay(rows).jobs ==> exists i :: JobReadFrom(rows, i, h, Replay(rows).jobs[h])
  {
    if rows != [] {
      var before, e := rows[..|rows| - 1], rows[|rows| - 1];
      assert rows == before + [e];
      JobsMean(before, h);
      if Introduces(rows, |before|, h) {
        JobReadNew(before, e, h);
      } else {
        IntroducesLast(before, e, h);
        forall i | Introduces(rows, i, h) ensures Introduces(before, i, h) {
          IntroducesBefore(before, e, i, h);
        }
        if h in Replay(before).jobs {
          var i :| JobReadFrom(before, i, h, Replay(before).jobs[h]);
          JobReadOneMore(before, e, i, h);
        }
      }
    }
  }
}
