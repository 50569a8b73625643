// What other processes may do to the shared log between two steps of one
// process, and what that leaves alone.
module RegistryInterference {
  import opened RegistryLog
  import opened RegistryProtocol

  // While one process holds the admission lock the rest may only append rows
  // that need no lock. While it collects without the lock they may do anything
  // but close jobs: one collector at a time is assumed.
  datatype Rivals = OutsideTheLock | OtherSubmitters

  ghost predicate Permitted(a: Action, who: Rivals)
  {
    match who
    case OutsideTheLock => a.Advance? || a.Resolve? || a.ResetBreaker? || a.Abandon? || a == Tear(false)
    case OtherSubmitters => !a.Resolve? && !a.Lose?
  }

  ghost predicate Interleaved(c: Caps, s: State, more: seq<Action>, who: Rivals)
  {
    Run(c, s, more) && forall i :: 0 <= i < |more| ==> Permitted(more[i], who)
  }

  // A submission in progress still finds everything it has already looked at.
  ghost predicate Undisturbed(s: State, s': State)
  {
    var v, v' := Replay(s.log.rows), Replay(s'.log.rows);
    && s'.stage == s.stage && s'.calls == s.calls && s'.started == s.started && s.clock <= s'.clock
    && v'.jobs.Keys == v.jobs.Keys && v'.held.Keys == v.held.Keys
    && (forall k :: Pending(v, k) ==> v'.held[k] == v.held[k]) && (forall k :: Pending(v', k) ==> Pending(v, k))
    && (Breaker(s.log.rows).None? ==> Breaker(s'.log.rows).None?)
    && (Unreadable in s.log.rows ==> Unreadable in s'.log.rows)
  }

  lemma BackgroundRow(c: Caps, v: View, e: Event)
    requires RowFits(c, v, e) && IsBackground(e)
    ensures var v' := ReplayStep(v, e);
            && v'.jobs.Keys == v.jobs.Keys && v'.held.Keys == v.held.Keys && Unaccounted(v') <= Unaccounted(v)
            && (forall k :: Pending(v, k) ==> v'.held[k] == v.held[k]) && forall k :: Pending(v', k) ==> Pending(v, k)
  {
  }

  lemma BackgroundBreaker(rows: seq<Event>, e: Event)
    requires IsBackground(e) && Unaccounted(Replay(rows + [e])) <= Unaccounted(Replay(rows))
    ensures Breaker(rows).None? ==> Breaker(rows + [e]).None?
  {
    assert (rows + [e])[..|rows|] == rows;
  }

  lemma TornBreaker(rows: seq<Event>)
    ensures Breaker(rows).None? ==> Breaker(rows + [Unreadable]).None?
  {
    ReplayAppend(rows, Unreadable);
    assert (rows + [Unreadable])[..|rows|] == rows;
  }

  lemma BackgroundStep(c: Caps, s: State, a: Action)
    requires StageFits(c, s) && Enabled(c, s, a) && Permitted(a, OutsideTheLock)
    ensures Undisturbed(s, Do(s, a))
  {
    RowsAfter(s, a);
    if a.Tear? {
      TornBreaker(s.log.rows);
    } else if RowOf(s, a).Some? {
      RowIsFit(c, s, a);
      BackgroundRow(c, Replay(s.log.rows), RowOf(s, a).value);
      ReplayAppend(s.log.rows, RowOf(s, a).value);
      BackgroundBreaker(s.log.rows, RowOf(s, a).value);
    }
  }

  lemma {:induction false} LockedOut(c: Caps, s: State, more: seq<Action>)
    requires Inv(c, s) && Interleaved(c, s, more, OutsideTheLock)
    ensures Undisturbed(s, After(s, more)) && Inv(c, After(s, more))
    decreases |more|
  {
    if more != [] {
      BackgroundStep(c, s, more[0]);
      Keep(c, s, more[0]);
      LockedOut(c, Do(s, more[0]), more[1..]);
    }
  }

  // What a collector has read of an open job stays true until it closes it.
  ghost predicate StillOpen(v: View, v': View)
  {
    forall h :: h in Outstanding(v) ==> h in Outstanding(v') && v'.jobs[h] == v.jobs[h]
  }

  ghost predicate ClosedStays(v: View, v': View)
  {
    forall h :: h in v.jobs && v.jobs[h].state != SUBMITTED ==> h in v'.jobs && v'.jobs[h] == v.jobs[h]
  }

  lemma SubmitterStep(c: Caps, s: State, a: Action)
    requires StageFits(c, s) && Enabled(c, s, a) && Permitted(a, OtherSubmitters)
    ensures var v, v' := Replay(s.log.rows), Replay(Do(s, a).log.rows); StillOpen(v, v') && ClosedStays(v, v')
    ensures Unreadable in s.log.rows ==> Unreadable in Do(s, a).log.rows
    ensures s.clock <= Do(s, a).clock
  {
    RowsAfter(s, a);
    if RowOf(s, a).Some? {
      RowIsFit(c, s, a);
    }
  }

  lemma {:induction false} OneCollector(c: Caps, s: State, more: seq<Action>)
    requires Inv(c, s) && Interleaved(c, s, more, OtherSubmitters)
    ensures Inv(c, After(s, more)) && s.clock <= After(s, more).clock
    ensures var v, v' := Replay(s.log.rows), Replay(After(s, more).log.rows); StillOpen(v, v') && ClosedStays(v, v')
    ensures Unreadable in s.log.rows ==> Unreadable in After(s, more).log.rows
    decreases |more|
  {
    if more != [] {
      SubmitterStep(c, s, more[0]);
      Keep(c, s, more[0]);
      OneCollector(c, Do(s, more[0]), more[1..]);
    }
  }
}
