// What holds of the registry's log after every run of the protocol, wherever
// its processes died.
module RegistryTheorems {
  import opened Prelude
  import opened Sums
  import opened RegistryLog
  import opened RegistryProtocol

  lemma {:induction false} LegacyHoldsNothing(rows: seq<Event>)
    requires forall i :: 0 <= i < |rows| ==> LegacyRow(rows[i])
    ensures Replay(rows).held == map[]
  {
    if rows != [] {
      LegacyHoldsNothing(rows[..|rows| - 1]);
    }
  }

  lemma InitiallyKept(c: Caps, s: State)
    requires Initial(s)
    ensures Inv(c, s)
  {
    LegacyHoldsNothing(s.log.rows);
  }

  lemma {:induction false} RunKeeps(c: Caps, s: State, actions: seq<Action>)
    requires Inv(c, s) && Run(c, s, actions)
    ensures Inv(c, After(s, actions))
    decreases |actions|
  {
    if actions != [] {
      Keep(c, s, actions[0]);
      RunKeeps(c, Do(s, actions[0]), actions[1..]);
    }
  }

  // ---- no invisible job ----------------------------------------------------

  lemma {:induction false} HeldHasARow(rows: seq<Event>, key: Key)
    requires key in Replay(rows).held
    ensures exists i :: 0 <= i < |rows| && rows[i].Reserved? && rows[i].key == key
  {
    var n := |rows| - 1;
    if rows[n].Reserved? && rows[n].key == key {
    } else {
      HeldHasARow(rows[..n], key);
      var i :| 0 <= i < n && rows[..n][i].Reserved? && rows[..n][i].key == key;
      assert rows[i].Reserved?;
    }
  }

  lemma {:induction false} AbandonedHasARow(rows: seq<Event>, key: Key)
    requires key in Replay(rows).held && Replay(rows).held[key].state == ABANDONED
    ensures Abandoned(key) in rows
  {
    var n := |rows| - 1;
    if rows[n] != Abandoned(key) {
      AbandonedHasARow(rows[..n], key);
    }
  }

  // The keys whose reservation was appended to a torn line along a run.
  ghost function Swallowed(s: State, actions: seq<Action>): set<Key>
    decreases |actions|
  {
    if actions == [] then {}
    else SwallowedBy(s, actions[0]) + Swallowed(Do(s, actions[0]), actions[1..])
  }

  ghost function SwallowedBy(s: State, a: Action): set<Key>
  {
    if a.Reserve? && s.stage.Cleared? && s.log.torn then {s.stage.key} else {}
  }

  // What was swallowed is in no view, and everything else that was reserved is.
  ghost predicate LostFits(s: State, lost: set<Key>)
  {
    var held := Replay(s.log.rows).held;
    && (lost != {} ==> Unreadable in s.log.rows && !s.stage.Cleared?)
    && (forall k :: k in lost ==> k !in held)
    && (forall k :: k in s.calls ==> k in held || k in lost)
    && (s.stage.Holding? ==> s.stage.key in held || s.stage.key in lost)
  }

  lemma LostStep(c: Caps, s: State, a: Action, lost: set<Key>)
    requires StageFits(c, s) && TornIsDamage(s.log) && Enabled(c, s, a) && LostFits(s, lost)
    ensures LostFits(Do(s, a), lost + SwallowedBy(s, a))
  {
    RowsAfter(s, a);
    DamageIsAbsence(s.log.rows);
    KeysAfter(c, s, a);
  }

  lemma LostAndKept(c: Caps, s: State, a: Action, lost: set<Key>)
    requires Inv(c, s) && Enabled(c, s, a) && LostFits(s, lost)
    ensures Inv(c, Do(s, a)) && LostFits(Do(s, a), lost + SwallowedBy(s, a))
  {
    LostStep(c, s, a, lost);
    Keep(c, s, a);
  }

  lemma Unions(a: set<Key>, b: set<Key>, c: set<Key>)
    ensures a + b + c == a + (b + c) && a + {} == a
  {
  }

  lemma {:induction false} LostRun(c: Caps, s: State, actions: seq<Action>, lost: set<Key>)
    requires Inv(c, s) && Run(c, s, actions) && LostFits(s, lost)
    ensures LostFits(After(s, actions), lost + Swallowed(s, actions))
    decreases |actions|
  {
    if actions == [] {
      Unions(lost, {}, {});
    } else {
      var a, rest := actions[0], actions[1..];
      LostAndKept(c, s, a, lost);
      LostRun(c, Do(s, a), rest, lost + SwallowedBy(s, a));
      Unions(lost, SwallowedBy(s, a), Swallowed(Do(s, a), rest));
    }
  }

  // Whatever process died and whenever, a key the substrate has a process for
  // has its reservation on disk, is never read back as free of charge, and is
  // tracked by handle, still waiting for an account, or closed by a human; unless
  // its reservation was appended to a torn line. Then, and only then, no view
  // shows it, and the damaged log admits nothing more.
  lemma NoInvisibleJob(c: Caps, s: State, actions: seq<Action>, key: Key)
    requires Initial(s) && Run(c, s, actions) && key in After(s, actions).started
    ensures var rows := After(s, actions).log.rows;
            var v := Replay(rows);
            && (key in v.held <==> key !in Swallowed(s, actions))
            && (key in Swallowed(s, actions) ==> Unreadable in rows)
            && (key !in Swallowed(s, actions) ==>
                  && (exists i :: 0 <= i < |rows| && rows[i].Reserved? && rows[i].key == key)
                  && IsCharged(v.held[key])
                  && (|| (v.held[key].state == BOUND && v.held[key].handle.Some? && MirrorsJob(v, v.held[key]))
                      || key in Unaccounted(v)
                      || (v.held[key].state == ABANDONED && Abandoned(key) in rows)))
  {
    InitiallyKept(c, s);
    RunKeeps(c, s, actions);
    LostRun(c, s, actions, {});
    assert {} + Swallowed(s, actions) == Swallowed(s, actions);
    if key !in Swallowed(s, actions) {
      Tracked(c, After(s, actions), key);
    }
  }

  lemma Tracked(c: Caps, s: State, key: Key)
    requires Coherent(Replay(s.log.rows)) && Accounted(s) && key in s.started && key in Replay(s.log.rows).held
    ensures var rows := s.log.rows;
            var v := Replay(rows);
            && (exists i :: 0 <= i < |rows| && rows[i].Reserved? && rows[i].key == key)
            && IsCharged(v.held[key])
            && (|| (v.held[key].state == BOUND && v.held[key].handle.Some? && MirrorsJob(v, v.held[key]))
                || key in Unaccounted(v)
                || (v.held[key].state == ABANDONED && Abandoned(key) in rows))
  {
    HeldHasARow(s.log.rows, key);
    if Replay(s.log.rows).held[key].state == ABANDONED {
      AbandonedHasARow(s.log.rows, key);
    }
  }

  // One intent reaches the substrate at most once, and everything the substrate
  // started is something it was called for.
  lemma CalledAtMostOnce(c: Caps, s: State, actions: seq<Action>)
    requires Initial(s) && Run(c, s, actions)
    ensures NoDuplicates(After(s, actions).calls)
    ensures forall k :: k in After(s, actions).started ==> k in After(s, actions).calls
  {
    InitiallyKept(c, s);
    RunKeeps(c, s, actions);
  }

  // ---- the reservation state machine ---------------------------------------

  ghost predicate Moves(a: ReservationState, b: ReservationState)
  {
    || a == b
    || (a == RESERVED && b in {BOUND, RELEASED, ORPHANED})
    || (a == ORPHANED && b == ABANDONED)
  }

  ghost predicate Becomes(a: ReservationState, b: ReservationState)
  {
    Moves(a, b) || (a == RESERVED && b == ABANDONED)
  }

  ghost predicate SameIntent(a: Reservation, b: Reservation)
  {
    && a.ticket == b.ticket && a.reservedAt == b.reservedAt && a.deadlineAt == b.deadlineAt
    && a.cost == b.cost && a.command == b.command && (a.handle.Some? ==> b.handle == a.handle)
  }

  lemma ReservationRow(c: Caps, v: View, e: Event, key: Key)
    requires RowFits(c, v, e) && key in v.held
    ensures var held' := ReplayStep(v, e).held;
            key in held' && SameIntent(v.held[key], held'[key]) && Moves(v.held[key].state, held'[key].state)
  {
  }

  lemma ReservationStep(c: Caps, s: State, a: Action, key: Key)
    requires Inv(c, s) && Enabled(c, s, a) && key in Replay(s.log.rows).held
    ensures var held, held' := Replay(s.log.rows).held, Replay(Do(s, a).log.rows).held;
            key in held' && SameIntent(held[key], held'[key]) && Moves(held[key].state, held'[key].state)
  {
    RowsAfter(s, a);
    if RowOf(s, a).Some? {
      RowIsFit(c, s, a);
      ReservationRow(c, Replay(s.log.rows), RowOf(s, a).value, key);
    }
  }

  // Over any continuation of a run, a key stays, its price, deadline and ticket
  // stay, and its state only moves forward; and never are two unaccounted for.
  lemma {:induction false} ReservationHistory(c: Caps, s: State, actions: seq<Action>, key: Key)
    requires Inv(c, s) && Run(c, s, actions) && key in Replay(s.log.rows).held
    ensures var held, held' := Replay(s.log.rows).held, Replay(After(s, actions).log.rows).held;
            key in held' && SameIntent(held[key], held'[key]) && Becomes(held[key].state, held'[key].state)
    ensures |Unaccounted(Replay(After(s, actions).log.rows))| <= 1
    decreases |actions|
  {
    if actions == [] {
      var open := Unaccounted(Replay(s.log.rows));
      if open != {} {
        var k :| k in open;
        assert open == {k};
      }
    } else {
      Keep(c, s, actions[0]);
      ReservationStep(c, s, actions[0], key);
      ReservationHistory(c, Do(s, actions[0]), actions[1..], key);
    }
  }

  // ---- the sliding window --------------------------------------------------

  ghost predicate OtherJobsAreLegacy(v: View, legacy: set<Handle>)
  {
    forall h :: h in v.jobs ==> h in legacy || exists k :: k in v.held && v.held[k].handle == Some(h)
  }

  lemma OtherJobsAfterRow(c: Caps, v: View, e: Event, legacy: set<Handle>)
    requires RowFits(c, v, e) && OtherJobsAreLegacy(v, legacy)
    ensures OtherJobsAreLegacy(ReplayStep(v, e), legacy)
  {
    var v' := ReplayStep(v, e);
    assert forall k :: k in v.held && v.held[k].handle.Some? ==> k in v'.held && v'.held[k].handle == v.held[k].handle;
    if e.Bound? && e.key in v.held {
      assert v'.held[e.key].handle == Some(e.handle);
    }
  }

  lemma {:induction false} JobsHaveReservations(c: Caps, s: State, actions: seq<Action>, legacy: set<Handle>)
    requires Inv(c, s) && Run(c, s, actions) && OtherJobsAreLegacy(Replay(s.log.rows), legacy)
    ensures OtherJobsAreLegacy(Replay(After(s, actions).log.rows), legacy)
    decreases |actions|
  {
    if actions != [] {
      var a := actions[0];
      Keep(c, s, a);
      RowsAfter(s, a);
      if RowOf(s, a).Some? {
        RowIsFit(c, s, a);
        OtherJobsAfterRow(c, Replay(s.log.rows), RowOf(s, a).value, legacy);
      }
      JobsHaveReservations(c, Do(s, a), actions[1..], legacy);
    }
  }

  // A day that a reservation was cleared for holds no job that takes money off it,
  // legacy or not: admission refuses to add up one that does.
  ghost predicate NothingTakenOff(v: View, t: real)
  {
    ReservedWithin(v, DayEnding(t)) ==> forall h :: h in v.jobs ==> Charge(v.jobs[h].submittedAt, v.jobs[h].cost, DayEnding(t)) >= 0.0
  }

  lemma NothingTakenOffByRow(c: Caps, v: View, e: Event, t: real)
    requires Priced(c, v) && RowFits(c, v, e) && !e.Reserved? && NothingTakenOff(v, t)
    ensures NothingTakenOff(ReplayStep(v, e), t)
  {
    SameReservations(c, v, e, DayEnding(t));
  }

  lemma NothingTakenOffByReservation(v: View, e: Event, spendAt: real, t: real)
    requires e.Reserved? && e.key !in v.held && e.at.Finite? && spendAt <= e.at.value
    requires AllCountable(v, Window(spendAt - SECONDS_PER_DAY, None)) && NothingTakenOff(v, t)
    ensures NothingTakenOff(ReplayStep(v, e), t)
  {
    if ReservedWithin(ReplayStep(v, e), DayEnding(t)) && !Within(e.at.value, DayEnding(t)) {
      assert ReservedWithin(v, DayEnding(t));
    }
  }

  lemma {:induction false} NothingTakenOffRun(c: Caps, s: State, actions: seq<Action>, t: real)
    requires Inv(c, s) && Run(c, s, actions) && NothingTakenOff(Replay(s.log.rows), t)
    ensures NothingTakenOff(Replay(After(s, actions).log.rows), t)
    decreases |actions|
  {
    if actions != [] {
      var a, v := actions[0], Replay(s.log.rows);
      NothingTakenOffStep(c, s, a, t);
      Keep(c, s, a);
      NothingTakenOffRun(c, Do(s, a), actions[1..], t);
    }
  }

  lemma NothingTakenOffStep(c: Caps, s: State, a: Action, t: real)
    requires StageFits(c, s) && Priced(c, Replay(s.log.rows)) && Enabled(c, s, a) && NothingTakenOff(Replay(s.log.rows), t)
    ensures NothingTakenOff(Replay(Do(s, a).log.rows), t)
  {
    RowsAfter(s, a);
    if !s.log.torn && RowOf(s, a).Some? {
      RowIsFit(c, s, a);
      if a.Reserve? {
        NothingTakenOffByReservation(Replay(s.log.rows), RowOf(s, a).value, s.stage.spendAt, t);
      } else {
        NothingTakenOffByRow(c, Replay(s.log.rows), RowOf(s, a).value, t);
      }
    }
  }

  // What the intents of a day cost, given what the two views of it add up to.
  lemma IntentsWithin(c: Caps, v: View, t: real)
    requires Coherent(v) && NothingTakenOff(v, t) && DayCapped(c, v, t) && 0.0 <= c.perDay
    ensures MapSum(IntentCharges(v, DayEnding(t))) <= c.perDay
  {
    var w := DayEnding(t);
    if ReservedWithin(v, w) {
      Conservation(v, w);
      var nothing := map h | h in v.jobs :: 0.0;
      SumZero(nothing);
      SumMonotone(nothing, LegacyCharges(v, w));
    } else {
      SumZero(IntentCharges(v, w));
    }
  }

  // In every run and for every instant, what was reserved and not released in
  // the day ending then stays within the daily cap, whatever the log held before
  // the protocol; and so does that with the older jobs of the day, if there is a
  // reservation in it or there are no older jobs.
  lemma SlidingWindowCap(c: Caps, s: State, actions: seq<Action>, t: real)
    requires Initial(s) && Run(c, s, actions) && 0.0 <= c.perDay
    ensures var v := Replay(After(s, actions).log.rows);
            && MapSum(IntentCharges(v, DayEnding(t))) <= c.perDay
            && (ReservedWithin(v, DayEnding(t)) || Replay(s.log.rows).jobs == map[] ==> OneViewTotal(v, DayEnding(t)) <= c.perDay)
            && (forall k :: k in v.held ==> v.held[k].cost.Finite? && 0.0 <= v.held[k].cost.value <= c.perJob)
  {
    InitiallyKept(c, s);
    RunKeeps(c, s, actions);
    LegacyHoldsNothing(s.log.rows);
    NothingTakenOffRun(c, s, actions, t);
    var v, w := Replay(After(s, actions).log.rows), DayEnding(t);
    IntentsWithin(c, v, t);
    assert DayCapped(c, v, t);
    Conservation(v, w);
    if Replay(s.log.rows).jobs == map[] && !ReservedWithin(v, w) {
      JobsHaveReservations(c, s, actions, {});
      SumZero(JobCharges(v, w));
      SumZero(UnboundCharges(v, w));
    }
  }

  // The total `submit` compares with the daily cap is the sum over intents.
  lemma SpendCountsEachIntentOnce(c: Caps, s: State, actions: seq<Action>, cutoff: real)
    requires Initial(s) && Run(c, s, actions) && Spend(After(s, actions).log.rows, cutoff).Ok?
    ensures Spend(After(s, actions).log.rows, cutoff).value ==
            OneViewTotal(Replay(After(s, actions).log.rows), Window(cutoff, None))
  {
    InitiallyKept(c, s);
    RunKeeps(c, s, actions);
    Conservation(Replay(After(s, actions).log.rows), Window(cutoff, None));
  }

  // ---- the breaker over a whole log ----------------------------------------

  // Between a row that opens the breaker and any later reservation lies a reset;
  // after an orphan it also takes a human's row for that very key.
  lemma BreakerTraceLaw(c: Caps, s: State, actions: seq<Action>, i: nat, j: nat)
    requires Initial(s) && Run(c, s, actions)
    requires i < j < |After(s, actions).log.rows|
    requires Opens(After(s, actions).log.rows[i]) && After(s, actions).log.rows[j].Reserved?
    ensures var rows := After(s, actions).log.rows;
            && (exists m :: i < m < j && rows[m] == Reset)
            && (rows[i].Orphaned? ==> exists m :: i < m < j && rows[m] == Abandoned(rows[i].key))
  {
    InitiallyKept(c, s);
    RunKeeps(c, s, actions);
    var rows := After(s, actions).log.rows;
    var before := rows[..j];
    var m :| i < m < j && before[m] == Reset;
    assert rows[m] == Reset;
    if rows[i].Orphaned? {
      assert AbandonedAfter(before, i, rows[i].key);
      var a :| i < a < j && before[a] == Abandoned(rows[i].key);
      assert rows[a] == Abandoned(rows[i].key);
    }
  }

  // One unreadable row, and nothing is admitted again.
  lemma {:induction false} DamageIsFinal(c: Caps, s: State, actions: seq<Action>)
    requires Run(c, s, actions) && Unreadable in s.log.rows && s.stage.Free?
    ensures var s' := After(s, actions);
            s'.stage.Free? && s'.calls == s.calls && s'.started == s.started && Unreadable in s'.log.rows
    decreases |actions|
  {
    if actions != [] {
      DamageIsAbsence(s.log.rows);
      RowsAfter(s, actions[0]);
      DamageIsFinal(c, Do(s, actions[0]), actions[1..]);
    }
  }

  // ---- the way out ---------------------------------------------------------

  lemma StepRun(c: Caps, s: State, actions: seq<Action>, a: Action)
    requires Run(c, s, actions) && Enabled(c, After(s, actions), a)
    ensures Run(c, s, actions + [a]) && After(s, actions + [a]) == Do(After(s, actions), a)
  {
    assert [a][1..] == [] && Run(c, Do(After(s, actions), a), []);
    RunConcat(c, s, actions, [a]);
  }

  ghost predicate IsRecovery(a: Action)
  {
    a.Crash? || a.Escalate? || a.Abandon? || a.ResetBreaker?
  }

  ghost predicate Recovery(c: Caps, s: State, actions: seq<Action>)
  {
    Run(c, s, actions) && forall i :: 0 <= i < |actions| ==> IsRecovery(actions[i])
  }

  lemma RecoveryStep(c: Caps, s: State, actions: seq<Action>, a: Action)
    requires Recovery(c, s, actions) && Enabled(c, After(s, actions), a) && IsRecovery(a)
    ensures Recovery(c, s, actions + [a]) && After(s, actions + [a]) == Do(After(s, actions), a)
  {
    StepRun(c, s, actions, a);
  }

  lemma WalkIsClearAfterReset(c: Caps, s: State)
    requires !s.log.torn && Unaccounted(Replay(s.log.rows)) == {}
    ensures Breaker(Do(s, ResetBreaker).log.rows).None?
  {
    RowsAfter(s, ResetBreaker);
  }

  lemma OrphanedThenAbandoned(v: View, key: Key)
    requires AtMostOneUnaccounted(v) && key in Unaccounted(v)
    ensures var v' := ReplayStep(v, Orphaned(key));
            key in v'.held && v'.held[key].state == ORPHANED && key in Unaccounted(v') && AtMostOneUnaccounted(v')
    ensures Unaccounted(ReplayStep(v, Abandoned(key))) == {}
  {
  }

  lemma AccountFor(c: Caps, s: State, key: Key) returns (actions: seq<Action>)
    requires AtMostOneUnaccounted(Replay(s.log.rows)) && !s.log.torn && s.stage.Free? && key in Unaccounted(Replay(s.log.rows))
    ensures Recovery(c, s, actions) && |actions| <= 2
    ensures !After(s, actions).log.torn && Unaccounted(Replay(After(s, actions).log.rows)) == {}
  {
    var v := Replay(s.log.rows);
    OrphanedThenAbandoned(v, key);
    if v.held[key].state == RESERVED {
      var mid := Do(s, Escalate(key));
      RowsAfter(s, Escalate(key));
      RecoveryStep(c, s, [], Escalate(key));
      OrphanedThenAbandoned(Replay(mid.log.rows), key);
      RowsAfter(mid, Abandon(key));
      RecoveryStep(c, s, [] + [Escalate(key)], Abandon(key));
      actions := [] + [Escalate(key)] + [Abandon(key)];
    } else {
      RowsAfter(s, Abandon(key));
      RecoveryStep(c, s, [], Abandon(key));
      actions := [] + [Abandon(key)];
    }
  }

  // Free the lock, and see to it that the next row stands alone.
  lemma MakeWhole(c: Caps, s: State) returns (actions: seq<Action>)
    ensures Recovery(c, s, actions) && |actions| <= 2
    ensures After(s, actions).log == Log(s.log.rows, false) && After(s, actions).stage.Free?
  {
    RecoveryStep(c, s, [], Crash);
    actions := [] + [Crash];
    if s.log.torn {
      RecoveryStep(c, s, actions, ResetBreaker);
      actions := actions + [ResetBreaker];
    }
  }

  // A breaker nobody could close would be a brick. From every state a run
  // reaches, five steps at most close it, each a crash, an escalation or a
  // human's row.
  lemma BreakerCanAlwaysBeClosed(c: Caps, s: State) returns (actions: seq<Action>)
    requires Inv(c, s)
    ensures Recovery(c, s, actions) && |actions| <= 5 && Breaker(After(s, actions).log.rows).None?
  {
    actions := MakeWhole(c, s);
    var mid := After(s, actions);
    if Unaccounted(Replay(mid.log.rows)) != {} {
      var k :| k in Unaccounted(Replay(mid.log.rows));
      var more := AccountFor(c, mid, k);
      RunConcat(c, s, actions, more);
      actions := actions + more;
    }
    WalkIsClearAfterReset(c, After(s, actions));
    RecoveryStep(c, s, actions, ResetBreaker);
    actions := actions + [ResetBreaker];
  }

  // ---- where the guarantees stop -------------------------------------------

  // If some other writer dies mid-row between the holder's checks and its
  // reservation, the reservation is glued to the torn line and a job runs that
  // no log shows.
  lemma TornTailHidesAJob(c: Caps)
    requires 0.0 <= c.perJob && 0.0 <= c.perDay
    ensures var s := State(Log([], false), 0.0, Free, [], {});
            var actions := [Admit("k", "t", ["run"], 1.0, 0.0), Tear(false), Reserve, Call, Start];
            && Initial(s) && Run(c, s, actions) && Swallowed(s, actions) == {"k"}
            && After(s, actions).started == {"k"} && Replay(After(s, actions).log.rows).held == map[]
  {
    var s := State(Log([], false), 0.0, Free, [], {});
    var admit := Admit("k", "t", ["run"], 1.0, 0.0);
    NothingSpent();
    assert Enabled(c, s, admit);
    TornTailSteps(c, Do(s, admit));
    OneStep(c, s, admit, [Tear(false), Reserve, Call, Start]);
    assert [admit, Tear(false), Reserve, Call, Start] == [admit] + [Tear(false), Reserve, Call, Start];
  }

  lemma NothingSpent()
    ensures forall t :: Spend([], t) == Ok(0.0)
  {
    forall t ensures Spend([], t) == Ok(0.0) {
      SumZero(JobCharges(Replay([]), Window(t, None)));
      SumZero(UnboundCharges(Replay([]), Window(t, None)));
    }
  }

  lemma TornTailSteps(c: Caps, s1: State)
    requires s1.log == Log([], false) && s1.stage.Cleared? && s1.stage.key == "k" && s1.calls == [] && s1.started == {}
    ensures var actions := [Tear(false), Reserve, Call, Start];
            && Run(c, s1, actions) && Swallowed(s1, actions) == {"k"}
            && After(s1, actions).started == {"k"} && Replay(After(s1, actions).log.rows).held == map[]
  {
    var s2 := Do(s1, Tear(false));
    var s3 := Do(s2, Reserve);
    var s4 := Do(s3, Call);
    assert s2.log == Log([Unreadable], true) && s2.stage == s1.stage;
    assert s3.log == Log([Unreadable], false) && s3.stage == Holding("k") && s4.stage == Calling("k");
    assert [Unreadable][..0] == [];
    OneStep(c, s4, Start, []);
    OneStep(c, s3, Call, [Start] + []);
    OneStep(c, s2, Reserve, [Call] + ([Start] + []));
    OneStep(c, s1, Tear(false), [Reserve] + ([Call] + ([Start] + [])));
    assert [Tear(false), Reserve, Call, Start] == [Tear(false)] + ([Reserve] + ([Call] + ([Start] + [])));
  }

  lemma OneStep(c: Caps, s: State, a: Action, rest: seq<Action>)
    requires Enabled(c, s, a) && Run(c, Do(s, a), rest)
    ensures Run(c, s, [a] + rest) && After(s, [a] + rest) == After(Do(s, a), rest)
    ensures Swallowed(s, [a] + rest) == SwallowedBy(s, a) + Swallowed(Do(s, a), rest)
  {
    assert ([a] + rest)[1..] == rest;
  }

  // A binding keeps a window's total exactly when its handle names no job yet, or
  // one that the window does not charge for.
  lemma BindingKeepsTheTotalExactlyWhen(v: View, key: Key, handle: Handle, w: Window)
    requires Pending(v, key)
    ensures var lost := if handle in v.jobs then Charge(v.jobs[handle].submittedAt, v.jobs[handle].cost, w) else 0.0;
            && TwoViewTotal(ReplayStep(v, Bound(key, handle)), w) == TwoViewTotal(v, w) - lost
            && (TwoViewTotal(ReplayStep(v, Bound(key, handle)), w) == TwoViewTotal(v, w) <==> lost == 0.0)
  {
    if handle in v.jobs {
      ChargesAfterRebinding(v, Bound(key, handle), w);
    } else {
      ChargesAfterBound(v, Bound(key, handle), w);
    }
  }

  lemma RebindingKeepsIntents(v: View, key: Key, handle: Handle, w: Window)
    requires Pending(v, key)
    ensures IntentCharges(ReplayStep(v, Bound(key, handle)), w) == IntentCharges(v, w)
    ensures AllCountable(v, w) ==> AllCountable(ReplayStep(v, Bound(key, handle)), w)
  {
    assert Unbound(v.held[key]);
  }

  // A substrate that hands out a handle a second time makes a charge vanish: what
  // admission computes from the log falls by the charge of the job the handle named
  // before, while not one intent less is charged for.
  lemma SharedHandleDropsACharge(rows: seq<Event>, key: Key, handle: Handle, cutoff: real)
    requires Pending(Replay(rows), key) && handle in Replay(rows).jobs && Spend(rows, cutoff).Ok?
    ensures var v, rows', w := Replay(rows), rows + [Bound(key, handle)], Window(cutoff, None);
            && Spend(rows', cutoff) ==
                 Ok(Spend(rows, cutoff).value - Charge(v.jobs[handle].submittedAt, v.jobs[handle].cost, w))
            && IntentCharges(Replay(rows'), w) == IntentCharges(v, w)
  {
    var v, rows', w := Replay(rows), rows + [Bound(key, handle)], Window(cutoff, None);
    ReplayAppend(rows, Bound(key, handle));
    assert rows'[..|rows|] == rows;
    BindingKeepsTheTotalExactlyWhen(v, key, handle, w);
    RebindingKeepsIntents(v, key, handle, w);
  }
}
