// The registry as a transition system. Several processes share one log; one of
// them at a time may hold the admission lock; any of them may die between any
// two steps, or in the middle of writing a row.
module RegistryProtocol {
  import opened Prelude
  import opened Sums
  import opened RegistryLog

  datatype Caps = Caps(perJob: real, perDay: real)

  // `torn` means the last line ends without a newline because its writer died,
  // so whatever is appended next is glued to it and becomes unreadable too.
  datatype Log = Log(rows: seq<Event>, torn: bool)

  // How far the holder of the admission lock has got with its submission.
  datatype Stage =
    | Free
    | Cleared(key: Key, ticket: Ticket, command: Command, seconds: real, cost: real, spendAt: real)
    | Holding(key: Key)
    | Calling(key: Key)
    | Answered(key: Key, handle: Handle)
    | Declining(key: Key)

  // `calls` and `started` are what no log can show: the keys the substrate was
  // called with, and the keys it has a process for.
  datatype State = State(log: Log, clock: real, stage: Stage, calls: seq<Key>, started: set<Key>)

  datatype Action =
    | Advance(to: real)
    | Admit(key: Key, ticket: Ticket, command: Command, seconds: real, cost: real)
    | Reserve
    | Call
    | Start
    | Answer(handle: Handle)
    | Decline
    | Fail
    | Bind
    | Release
    | Crash
    | Tear(holderDies: bool)
    | Escalate(key: Key)
    | Lose(handle: Handle)
    | Resolve(handle: Handle, artifact: string, done: Option<Completion>)
    | Trip
    | ResetBreaker
    | Abandon(key: Key)

  ghost function Append(l: Log, e: Event): Log
  {
    if l.torn then Log(l.rows, false) else Log(l.rows + [e], false)
  }

  ghost function TornAppend(l: Log): Log
  {
    if l.torn then l else Log(l.rows + [Unreadable], true)
  }

  ghost predicate Admissible(c: Caps, s: State, key: Key, seconds: real, cost: real)
  {
    && Damage(s.log.rows) == 0
    && Breaker(s.log.rows).None?
    && key !in Replay(s.log.rows).held
    && seconds > 0.0
    && 0.0 <= cost <= c.perJob
    && var spend := Spend(s.log.rows, s.clock - SECONDS_PER_DAY);
       spend.Ok? && spend.value + cost <= c.perDay
  }

  ghost predicate Enabled(c: Caps, s: State, a: Action)
  {
    var v := Replay(s.log.rows);
    match a
    case Advance(to) => s.clock <= to
    case Admit(key, ticket, command, seconds, cost) => s.stage.Free? && Admissible(c, s, key, seconds, cost)
    case Reserve => s.stage.Cleared?
    case Call => s.stage.Holding?
    case Start => s.stage.Calling?
    // A substrate's handles are its own: one it returns names no job yet.
    case Answer(handle) => s.stage.Calling? && handle !in v.jobs
    // Declining is the substrate's statement that it started nothing.
    case Decline => s.stage.Calling? && s.stage.key !in s.started
    case Fail => s.stage.Calling?
    case Bind => s.stage.Answered?
    case Release => s.stage.Declining?
    case Crash => true
    // Any writer may die mid-row, with the lock or without it.
    case Tear(holderDies) => holderDies ==> !s.stage.Free?
    case Escalate(key) => s.stage.Free? && key in v.held && IsOrphaned(v.held[key])
    case Lose(handle) =>
      && s.stage.Free? && handle in Outstanding(v)
      && v.jobs[handle].deadlineAt.Finite? && v.jobs[handle].deadlineAt.value <= s.clock
    case Resolve(handle, artifact, done) => true
    case Trip => s.stage.Free?
    case ResetBreaker => true
    // Read, then append, without the lock: a second human may have got there first.
    case Abandon(key) => key in v.held && v.held[key].state in {ORPHANED, ABANDONED}
  }

  // The row an action appends, if any.
  ghost function RowOf(s: State, a: Action): Option<Event>
  {
    match a
    case Reserve =>
      if !s.stage.Cleared? then None else
      Some(Reserved(s.stage.key, Finite(s.clock), s.stage.ticket, Finite(s.clock + s.stage.seconds),
                    Finite(s.stage.cost), s.stage.command))
    case Bind => if s.stage.Answered? then Some(Bound(s.stage.key, s.stage.handle)) else None
    case Release => if s.stage.Declining? then Some(Released(s.stage.key)) else None
    case Escalate(key) => Some(Orphaned(key))
    case Lose(handle) => Some(Lost(handle))
    case Resolve(handle, artifact, done) => Some(Resolved(handle, artifact, done))
    case Trip => Some(Tripped)
    case ResetBreaker => Some(Reset)
    case Abandon(key) => Some(Abandoned(key))
    case _ => None
  }

  ghost function LogAfter(s: State, a: Action): Log
  {
    if a.Tear? then TornAppend(s.log)
    else match RowOf(s, a)
      case Some(e) => Append(s.log, e)
      case None => s.log
  }

  ghost function StageAfter(s: State, a: Action): Stage
  {
    match a
    case Admit(key, ticket, command, seconds, cost) => Cleared(key, ticket, command, seconds, cost, s.clock)
    case Reserve => if s.stage.Cleared? then Holding(s.stage.key) else s.stage
    case Call => if s.stage.Holding? then Calling(s.stage.key) else s.stage
    case Answer(handle) => if s.stage.Calling? then Answered(s.stage.key, handle) else s.stage
    case Decline => if s.stage.Calling? then Declining(s.stage.key) else s.stage
    case Tear(holderDies) => if holderDies then Free else s.stage
    case Fail => Free
    case Bind => Free
    case Release => Free
    case Crash => Free
    case _ => s.stage
  }

  ghost function Do(s: State, a: Action): State
  {
    State(
      LogAfter(s, a),
      if a.Advance? then a.to else s.clock,
      StageAfter(s, a),
      if a.Call? && s.stage.Holding? then s.calls + [s.stage.key] else s.calls,
      if (a.Start? || a.Answer?) && s.stage.Calling? then s.started + {s.stage.key} else s.started)
  }

  // ---- runs ----------------------------------------------------------------

  ghost predicate LegacyRow(e: Event)
  {
    e.Unreadable? || e.Submitted? || e.Resolved? || e.Lost? || e.Tripped? || e.Reset?
  }

  // A registry opened on a log that no reservation was ever written to.
  ghost predicate Initial(s: State)
  {
    && (forall i :: 0 <= i < |s.log.rows| ==> LegacyRow(s.log.rows[i]))
    && !s.log.torn && s.stage.Free? && s.calls == [] && s.started == {}
  }

  ghost predicate Run(c: Caps, s: State, actions: seq<Action>)
    decreases |actions|
  {
    actions == [] || (Enabled(c, s, actions[0]) && Run(c, Do(s, actions[0]), actions[1..]))
  }

  ghost function After(s: State, actions: seq<Action>): State
    decreases |actions|
  {
    if actions == [] then s else After(Do(s, actions[0]), actions[1..])
  }

  lemma FirstStepStays(c: Caps, s: State, first: seq<Action>, second: seq<Action>)
    requires first != [] && Run(c, s, first) && Run(c, Do(s, first[0]), first[1..] + second)
    ensures Run(c, s, first + second) && After(s, first + second) == After(Do(s, first[0]), first[1..] + second)
  {
    assert (first + second)[0] == first[0] && (first + second)[1..] == first[1..] + second;
  }

  lemma {:induction false} RunConcat(c: Caps, s: State, first: seq<Action>, second: seq<Action>)
    requires Run(c, s, first) && Run(c, After(s, first), second)
    ensures Run(c, s, first + second) && After(s, first + second) == After(After(s, first), second)
    decreases |first|
  {
    if first == [] {
      assert first + second == second;
    } else {
      RunConcat(c, Do(s, first[0]), first[1..], second);
      FirstStepStays(c, s, first, second);
    }
  }

  // ---- what every step keeps -----------------------------------------------

  ghost predicate TornIsDamage(l: Log)
  {
    l.torn ==> Unreadable in l.rows
  }

  // A reservation that replayed as orphaned has the row to show for it, and one
  // that replayed as abandoned has a human's row after that.
  ghost predicate OrphanTrail(rows: seq<Event>, v: View)
  {
    forall i :: 0 <= i < |rows| && rows[i].Orphaned? ==>
      && rows[i].key in v.held && v.held[rows[i].key].handle.None?
      && v.held[rows[i].key].state in {ORPHANED, ABANDONED}
      && (v.held[rows[i].key].state == ABANDONED ==> AbandonedAfter(rows, i, rows[i].key))
  }

  ghost predicate AbandonedAfter(rows: seq<Event>, i: nat, key: Key)
  {
    exists j :: i < j < |rows| && rows[j] == Abandoned(key)
  }

  // No reservation follows an opening row unless a reset lies between, and none
  // follows an orphaned row unless a human abandoned that key in between.
  ghost predicate BreakerLaw(rows: seq<Event>)
  {
    forall i, j :: 0 <= i < j < |rows| && Opens(rows[i]) && rows[j].Reserved? ==>
      && ResetAfter(rows[..j], i)
      && (rows[i].Orphaned? ==> AbandonedAfter(rows[..j], i, rows[i].key))
  }

  ghost predicate Pending(v: View, key: Key)
  {
    key in v.held && v.held[key].handle.None? && v.held[key].state == RESERVED
  }

  // A reservation glued to a torn line: the log shows the damage and not the key.
  ghost predicate Unrecorded(rows: seq<Event>, key: Key)
  {
    key !in Replay(rows).held && Unreadable in rows
  }

  ghost predicate InHand(rows: seq<Event>, key: Key)
  {
    Pending(Replay(rows), key) || Unrecorded(rows, key)
  }

  ghost predicate StageFits(c: Caps, s: State)
  {
    var rows, v := s.log.rows, Replay(s.log.rows);
    match s.stage
    case Free => true
    case Cleared(key, ticket, command, seconds, cost, spendAt) =>
      && Unaccounted(v) == {} && BreakerWalk(rows).None?
      && key !in v.held && key !in s.calls && seconds > 0.0 && 0.0 <= cost <= c.perJob && spendAt <= s.clock
      && var w := Window(spendAt - SECONDS_PER_DAY, None);
         AllCountable(v, w) && TwoViewTotal(v, w) + cost <= c.perDay
    case Holding(key) => InHand(rows, key) && key !in s.calls
    case Calling(key) => InHand(rows, key) && key in s.calls
    case Answered(key, handle) => InHand(rows, key) && key in s.started && handle !in v.jobs
    case Declining(key) => InHand(rows, key) && key !in s.started
  }

  ghost predicate NoDuplicates(keys: seq<Key>)
  {
    forall i, j :: 0 <= i < j < |keys| ==> keys[i] != keys[j]
  }

  ghost predicate Accounted(s: State)
  {
    var v := Replay(s.log.rows);
    && (forall k :: k in s.calls ==> k in v.held || Unreadable in s.log.rows)
    && (forall k :: k in s.started ==> k in s.calls && (k in v.held ==> IsCharged(v.held[k])))
    && NoDuplicates(s.calls)
  }

  ghost predicate AtMostOneUnaccounted(v: View)
  {
    forall j, k :: j in v.held && k in v.held && IsUnaccounted(v.held[j]) && IsUnaccounted(v.held[k]) ==> j == k
  }

  // Every number the protocol writes can be compared, and no estimate exceeds
  // the per-job cap.
  ghost predicate Priced(c: Caps, v: View)
  {
    forall k :: k in v.held ==>
      && v.held[k].reservedAt.Finite? && v.held[k].cost.Finite? && v.held[k].deadlineAt.Finite?
      && 0.0 <= v.held[k].cost.value <= c.perJob
      && v.held[k].reservedAt.value < v.held[k].deadlineAt.value
  }

  ghost function DayEnding(t: real): Window { Window(t - SECONDS_PER_DAY, Some(t)) }

  ghost predicate ReservedWithin(v: View, w: Window)
  {
    exists k :: k in v.held && v.held[k].reservedAt.Finite? && Within(v.held[k].reservedAt.value, w)
  }

  ghost predicate DayCapped(c: Caps, v: View, t: real)
  {
    ReservedWithin(v, DayEnding(t)) ==> TwoViewTotal(v, DayEnding(t)) <= c.perDay
  }

  ghost predicate LogFits(c: Caps, rows: seq<Event>)
  {
    var v := Replay(rows);
    Coherent(v) && Priced(c, v) && AtMostOneUnaccounted(v) && OrphanTrail(rows, v) && BreakerLaw(rows)
  }

  ghost predicate Inv(c: Caps, s: State)
  {
    && LogFits(c, s.log.rows) && TornIsDamage(s.log)
    && StageFits(c, s) && Accounted(s)
    && forall t :: DayCapped(c, Replay(s.log.rows), t)
  }

  // ---- each step keeps it --------------------------------------------------

  lemma RowsAfter(s: State, a: Action)
    ensures Do(s, a).log.rows ==
            if s.log.torn then s.log.rows
            else if a.Tear? then s.log.rows + [Unreadable]
            else if RowOf(s, a).Some? then s.log.rows + [RowOf(s, a).value] else s.log.rows
    ensures Replay(Do(s, a).log.rows) ==
            if !s.log.torn && RowOf(s, a).Some? then ReplayStep(Replay(s.log.rows), RowOf(s, a).value)
            else Replay(s.log.rows)
  {
    ReplayAppend(s.log.rows, Unreadable);
    if RowOf(s, a).Some? {
      ReplayAppend(s.log.rows, RowOf(s, a).value);
    }
  }

  // What the protocol guarantees of a row relative to the log it lands on. The
  // replay itself would accept far more.
  ghost predicate RowFits(c: Caps, v: View, e: Event)
  {
    match e
    case Reserved(key, at, ticket, deadlineAt, cost, command) =>
      && key !in v.held && Unaccounted(v) == {}
      && at.Finite? && deadlineAt.Finite? && cost.Finite?
      && 0.0 <= cost.value <= c.perJob && at.value < deadlineAt.value
    case Bound(key, handle) => key in v.held ==> Pending(v, key) && handle !in v.jobs
    case Released(key) => key in v.held ==> Pending(v, key)
    case Orphaned(key) => Pending(v, key)
    case Abandoned(key) => key in v.held && v.held[key].state in {ORPHANED, ABANDONED}
    case Lost(handle) => handle in Outstanding(v)
    case Submitted(_, _, _, _, _) => false
    case _ => true
  }

  lemma RowIsFit(c: Caps, s: State, a: Action)
    requires StageFits(c, s) && Enabled(c, s, a) && RowOf(s, a).Some?
    ensures RowFits(c, Replay(s.log.rows), RowOf(s, a).value)
  {
  }

  lemma KeepCoherentBound(v: View, e: Event)
    requires Coherent(v) && e.Bound? && (e.key in v.held ==> Pending(v, e.key) && e.handle !in v.jobs)
    ensures Coherent(ReplayStep(v, e))
  {
    assert forall k :: k in v.held && v.held[k].handle.Some? ==> MirrorsJob(v, v.held[k]);
  }

  lemma KeepCoherent(c: Caps, v: View, e: Event)
    requires Coherent(v) && RowFits(c, v, e)
    ensures Coherent(ReplayStep(v, e))
  {
    if e.Bound? {
      KeepCoherentBound(v, e);
    }
  }

  lemma KeepPriced(c: Caps, v: View, e: Event)
    requires Priced(c, v) && RowFits(c, v, e)
    ensures Priced(c, ReplayStep(v, e))
  {
  }

  lemma KeepOneUnaccounted(c: Caps, v: View, e: Event)
    requires AtMostOneUnaccounted(v) && RowFits(c, v, e)
    ensures AtMostOneUnaccounted(ReplayStep(v, e))
  {
    assert forall k :: k in v.held && IsUnaccounted(v.held[k]) ==> k in Unaccounted(v);
  }

  // Keys come by a reservation on a whole line, and never go.
  lemma KeysAfter(c: Caps, s: State, a: Action)
    requires StageFits(c, s) && Enabled(c, s, a)
    ensures Replay(Do(s, a).log.rows).held.Keys ==
            Replay(s.log.rows).held.Keys + if a.Reserve? && !s.log.torn then {s.stage.key} else {}
  {
    RowsAfter(s, a);
    if RowOf(s, a).Some? {
      RowIsFit(c, s, a);
    }
  }

  lemma RowKeepsCharges(c: Caps, v: View, e: Event, k: Key)
    requires RowFits(c, v, e) && k in v.held
    ensures k in ReplayStep(v, e).held
    ensures IsCharged(v.held[k]) && !(e.Released? && e.key == k) ==> IsCharged(ReplayStep(v, e).held[k])
  {
  }

  lemma ChargedAfter(c: Caps, s: State, a: Action, k: Key)
    requires StageFits(c, s) && Enabled(c, s, a) && k in Replay(s.log.rows).held && IsCharged(Replay(s.log.rows).held[k])
    requires !(s.stage.Declining? && s.stage.key == k)
    ensures k in Replay(Do(s, a).log.rows).held && IsCharged(Replay(Do(s, a).log.rows).held[k])
  {
    RowsAfter(s, a);
    if RowOf(s, a).Some? {
      RowIsFit(c, s, a);
      RowKeepsCharges(c, Replay(s.log.rows), RowOf(s, a).value, k);
    }
  }

  lemma CalledAfter(c: Caps, s: State, a: Action, k: Key)
    requires StageFits(c, s) && Enabled(c, s, a) && (forall j :: j in s.calls ==> j in Replay(s.log.rows).held || Unreadable in s.log.rows)
    requires k in Do(s, a).calls
    ensures k in Replay(Do(s, a).log.rows).held || Unreadable in Do(s, a).log.rows
  {
    KeysAfter(c, s, a);
    RowsAfter(s, a);
  }

  lemma StartedAfter(c: Caps, s: State, a: Action, k: Key)
    requires StageFits(c, s) && Accounted(s) && Enabled(c, s, a) && k in Do(s, a).started
    ensures k in Do(s, a).calls
    ensures k in Replay(Do(s, a).log.rows).held ==> IsCharged(Replay(Do(s, a).log.rows).held[k])
  {
    KeysAfter(c, s, a);
    if k in Replay(s.log.rows).held {
      ChargedAfter(c, s, a, k);
    }
  }

  lemma KeepAccounted(c: Caps, s: State, a: Action)
    requires Accounted(s) && StageFits(c, s) && Enabled(c, s, a)
    ensures Accounted(Do(s, a))
  {
    var s' := Do(s, a);
    forall k | k in s'.calls ensures k in Replay(s'.log.rows).held || Unreadable in s'.log.rows {
      CalledAfter(c, s, a, k);
    }
    forall k | k in s'.started ensures k in s'.calls && (k in Replay(s'.log.rows).held ==> IsCharged(Replay(s'.log.rows).held[k])) {
      StartedAfter(c, s, a, k);
    }
    KeepCalls(s, a);
  }

  lemma KeepCalls(s: State, a: Action)
    requires NoDuplicates(s.calls) && (s.stage.Holding? ==> s.stage.key !in s.calls)
    ensures NoDuplicates(Do(s, a).calls)
  {
  }

  // Rows that the other processes may append while a submission is in flight.
  ghost predicate IsBackground(e: Event)
  {
    e.Resolved? || e.Abandoned? || e.Reset?
  }

  lemma BackgroundKeepsClearance(c: Caps, v: View, e: Event, w: Window)
    requires RowFits(c, v, e) && IsBackground(e)
    ensures var v' := ReplayStep(v, e);
            && JobCharges(v', w) == JobCharges(v, w) && UnboundCharges(v', w) == UnboundCharges(v, w)
            && (AllCountable(v, w) ==> AllCountable(v', w))
            && v'.held.Keys == v.held.Keys && v'.jobs.Keys == v.jobs.Keys
            && Unaccounted(v') <= Unaccounted(v)
            && forall k :: Pending(v, k) ==> Pending(v', k)
  {
  }

  lemma ClearedWithOneMore(c: Caps, s: State, e: Event, torn: bool)
    requires StageFits(c, s) && s.stage.Cleared? && RowFits(c, Replay(s.log.rows), e) && IsBackground(e)
    ensures StageFits(c, s.(log := Log(s.log.rows + [e], torn)))
  {
    var rows := s.log.rows;
    ReplayAppend(rows, e);
    BackgroundKeepsClearance(c, Replay(rows), e, Window(s.stage.spendAt - SECONDS_PER_DAY, None));
    assert (rows + [e])[..|rows|] == rows;
  }

  lemma KeepClearance(c: Caps, s: State, a: Action)
    requires StageFits(c, s) && Enabled(c, s, a) && (a.Resolve? || a.Abandon? || a.ResetBreaker?) && s.stage.Cleared?
    ensures StageFits(c, Do(s, a))
  {
    RowIsFit(c, s, a);
    ClearedWithOneMore(c, s, RowOf(s, a).value, false);
    assert Do(s, a) == s.(log := Append(s.log, RowOf(s, a).value));
  }

  lemma KeepStageBackground(c: Caps, s: State, a: Action)
    requires StageFits(c, s) && Enabled(c, s, a) && (a.Resolve? || a.Abandon? || a.ResetBreaker?)
    ensures StageFits(c, Do(s, a))
  {
    if s.stage.Cleared? {
      KeepClearance(c, s, a);
    } else {
      RowIsFit(c, s, a);
      BackgroundKeepsClearance(c, Replay(s.log.rows), RowOf(s, a).value, Window(0.0, None));
      RowsAfter(s, a);
    }
  }

  lemma KeepStageReserve(c: Caps, s: State)
    requires StageFits(c, s) && TornIsDamage(s.log) && s.stage.Cleared?
    ensures StageFits(c, Do(s, Reserve))
  {
    RowsAfter(s, Reserve);
  }

  lemma KeepStageCall(c: Caps, s: State, a: Action)
    requires StageFits(c, s) && Enabled(c, s, a) && (a.Call? || a.Start? || a.Answer? || a.Decline?)
    ensures StageFits(c, Do(s, a))
  {
    assert Do(s, a).log == s.log;
  }

  lemma KeepStageTear(c: Caps, s: State, a: Action)
    requires StageFits(c, s) && Enabled(c, s, a) && a.Tear?
    ensures StageFits(c, Do(s, a))
  {
    RowsAfter(s, a);
    var rows := s.log.rows;
    assert (rows + [Unreadable])[..|rows|] == rows;
  }

  lemma KeepStageAdmit(c: Caps, s: State, a: Action)
    requires Accounted(s) && Enabled(c, s, a) && a.Admit?
    ensures StageFits(c, Do(s, a))
  {
    DamageIsAbsence(s.log.rows);
  }

  // Every step but these frees the lock, or needs it free.
  lemma KeepStageFree(c: Caps, s: State, a: Action)
    requires StageFits(c, s) && Enabled(c, s, a)
    requires a.Fail? || a.Bind? || a.Release? || a.Crash? || a.Escalate? || a.Lose? || a.Trip?
    ensures StageFits(c, Do(s, a))
  {
    assert Do(s, a).stage.Free?;
  }

  lemma KeepStageAdvance(c: Caps, s: State, to: real)
    requires StageFits(c, s) && s.clock <= to
    ensures StageFits(c, Do(s, Advance(to)))
  {
    assert Do(s, Advance(to)) == s.(clock := to);
  }

  lemma KeepStage(c: Caps, s: State, a: Action)
    requires StageFits(c, s) && Accounted(s) && TornIsDamage(s.log) && Enabled(c, s, a)
    ensures StageFits(c, Do(s, a))
  {
    match a
    case Resolve(_, _, _) => KeepStageBackground(c, s, a);
    case Abandon(_) => KeepStageBackground(c, s, a);
    case ResetBreaker => KeepStageBackground(c, s, a);
    case Admit(_, _, _, _, _) => KeepStageAdmit(c, s, a);
    case Reserve => KeepStageReserve(c, s);
    case Call => KeepStageCall(c, s, a);
    case Start => KeepStageCall(c, s, a);
    case Answer(_) => KeepStageCall(c, s, a);
    case Decline => KeepStageCall(c, s, a);
    case Tear(_) => KeepStageTear(c, s, a);
    case Advance(to) => KeepStageAdvance(c, s, to);
    case _ => KeepStageFree(c, s, a);
  }

  lemma KeepOrphanTrail(c: Caps, rows: seq<Event>, e: Event)
    requires OrphanTrail(rows, Replay(rows)) && RowFits(c, Replay(rows), e)
    ensures OrphanTrail(rows + [e], Replay(rows + [e]))
  {
    var v, rows' := Replay(rows), rows + [e];
    ReplayAppend(rows, e);
    forall i | 0 <= i < |rows| && rows[i].Orphaned? && AbandonedAfter(rows, i, rows[i].key)
      ensures AbandonedAfter(rows', i, rows[i].key)
    {
      var j :| i < j < |rows| && rows[j] == Abandoned(rows[i].key);
      assert rows'[j] == rows[j];
    }
    if e.Abandoned? {
      assert rows'[|rows|] == e;
    }
  }

  lemma KeepBreakerLaw(c: Caps, rows: seq<Event>, e: Event)
    requires BreakerLaw(rows) && OrphanTrail(rows, Replay(rows))
    requires e.Reserved? ==> BreakerWalk(rows).None? && Unaccounted(Replay(rows)) == {}
    ensures BreakerLaw(rows + [e])
  {
    var v, n, rows' := Replay(rows), |rows|, rows + [e];
    assert rows'[..n] == rows;
    BreakerWalkMeaning(rows);
    forall i, j | 0 <= i < j < |rows'| && Opens(rows'[i]) && rows'[j].Reserved?
      ensures ResetAfter(rows'[..j], i) && (rows'[i].Orphaned? ==> AbandonedAfter(rows'[..j], i, rows'[i].key))
    {
      if j < n {
        assert rows'[..j] == rows[..j] && rows'[i] == rows[i] && rows'[j] == rows[j];
      } else {
        assert forall k :: k in v.held && IsUnaccounted(v.held[k]) ==> k in Unaccounted(v);
      }
    }
  }

  // ---- the trailing-day cap ------------------------------------------------

  lemma ChargesAfterReserved(v: View, e: Event, w: Window)
    requires e.Reserved? && e.key !in v.held
    ensures TwoViewTotal(ReplayStep(v, e), w) == TwoViewTotal(v, w) + Charge(e.at, e.cost, w)
  {
    var v' := ReplayStep(v, e);
    SumAdd(UnboundCharges(v, w), e.key, Charge(e.at, e.cost, w));
    assert UnboundCharges(v', w) == UnboundCharges(v, w)[e.key := Charge(e.at, e.cost, w)];
    assert JobCharges(v', w) == JobCharges(v, w);
  }

  lemma ChargesAfterBound(v: View, e: Event, w: Window)
    requires e.Bound? && Pending(v, e.key) && e.handle !in v.jobs
    ensures TwoViewTotal(ReplayStep(v, e), w) == TwoViewTotal(v, w)
  {
    var v' := ReplayStep(v, e);
    var x := Charge(v.held[e.key].reservedAt, v.held[e.key].cost, w);
    SumChange(UnboundCharges(v, w), e.key, 0.0);
    assert UnboundCharges(v', w) == UnboundCharges(v, w)[e.key := 0.0];
    SumAdd(JobCharges(v, w), e.handle, x);
    assert JobCharges(v', w) == JobCharges(v, w)[e.handle := x];
  }

  // A handle that already names a job: the job it named is forgotten, and its
  // charge with it.
  lemma ChargesAfterRebinding(v: View, e: Event, w: Window)
    requires e.Bound? && Pending(v, e.key) && e.handle in v.jobs
    ensures TwoViewTotal(ReplayStep(v, e), w) ==
            TwoViewTotal(v, w) - Charge(v.jobs[e.handle].submittedAt, v.jobs[e.handle].cost, w)
  {
    var v' := ReplayStep(v, e);
    var x := Charge(v.held[e.key].reservedAt, v.held[e.key].cost, w);
    SumChange(UnboundCharges(v, w), e.key, 0.0);
    assert UnboundCharges(v', w) == UnboundCharges(v, w)[e.key := 0.0];
    SumChange(JobCharges(v, w), e.handle, x);
    assert JobCharges(v', w) == JobCharges(v, w)[e.handle := x];
  }

  lemma ChargesAfterReleased(v: View, e: Event, w: Window)
    requires e.Released? && Pending(v, e.key)
    ensures TwoViewTotal(ReplayStep(v, e), w) == TwoViewTotal(v, w) - Charge(v.held[e.key].reservedAt, v.held[e.key].cost, w)
  {
    var v' := ReplayStep(v, e);
    SumChange(UnboundCharges(v, w), e.key, 0.0);
    assert UnboundCharges(v', w) == UnboundCharges(v, w)[e.key := 0.0];
    assert JobCharges(v', w) == JobCharges(v, w);
  }

  lemma ChargesAfterOther(c: Caps, v: View, e: Event, w: Window)
    requires RowFits(c, v, e) && !e.Reserved? && !e.Bound? && !e.Released?
    ensures TwoViewTotal(ReplayStep(v, e), w) == TwoViewTotal(v, w)
  {
    var v' := ReplayStep(v, e);
    assert UnboundCharges(v', w) == UnboundCharges(v, w);
    assert JobCharges(v', w) == JobCharges(v, w);
  }

  // Only a reservation raises the total of a window; nothing but a release
  // lowers it, and binding moves a charge from one view to the other.
  lemma ChargesAfter(c: Caps, v: View, e: Event, w: Window)
    requires Priced(c, v) && RowFits(c, v, e)
    ensures TwoViewTotal(ReplayStep(v, e), w) ==
            TwoViewTotal(v, w)
            + (if e.Reserved? then Charge(e.at, e.cost, w) else 0.0)
            - (if e.Released? && e.key in v.held then Charge(v.held[e.key].reservedAt, v.held[e.key].cost, w) else 0.0)
  {
    if e.Reserved? {
      ChargesAfterReserved(v, e, w);
    } else if e.Bound? && e.key in v.held {
      ChargesAfterBound(v, e, w);
    } else if e.Released? && e.key in v.held {
      ChargesAfterReleased(v, e, w);
    } else if !e.Bound? && !e.Released? {
      ChargesAfterOther(c, v, e, w);
    }
  }

  lemma SameReservations(c: Caps, v: View, e: Event, w: Window)
    requires RowFits(c, v, e)
    ensures ReservedWithin(ReplayStep(v, e), w) ==>
              ReservedWithin(v, w) || (e.Reserved? && e.at.Finite? && Within(e.at.value, w))
  {
  }

  // A day that the new reservation falls in holds nothing the admission check
  // did not count.
  lemma WindowArgument(v: View, spendAt: real, now: real, t: real)
    requires spendAt <= now && Within(now, DayEnding(t))
    requires AllCountable(v, Window(spendAt - SECONDS_PER_DAY, None))
    ensures TwoViewTotal(v, DayEnding(t)) <= TwoViewTotal(v, Window(spendAt - SECONDS_PER_DAY, None))
  {
    var day, since := DayEnding(t), Window(spendAt - SECONDS_PER_DAY, None);
    SumMonotone(JobCharges(v, day), JobCharges(v, since));
    SumMonotone(UnboundCharges(v, day), UnboundCharges(v, since));
  }

  lemma DayCappedAfterRow(c: Caps, v: View, e: Event, t: real)
    requires Priced(c, v) && RowFits(c, v, e) && !e.Reserved?
    requires DayCapped(c, v, t)
    ensures DayCapped(c, ReplayStep(v, e), t)
  {
    ChargesAfter(c, v, e, DayEnding(t));
    SameReservations(c, v, e, DayEnding(t));
  }

  lemma DayCappedAfterReservation(c: Caps, v: View, e: Event, spendAt: real, t: real)
    requires e.Reserved? && e.key !in v.held && e.at.Finite? && e.cost.Finite? && spendAt <= e.at.value
    requires AllCountable(v, Window(spendAt - SECONDS_PER_DAY, None))
    requires TwoViewTotal(v, Window(spendAt - SECONDS_PER_DAY, None)) + e.cost.value <= c.perDay
    requires DayCapped(c, v, t)
    ensures DayCapped(c, ReplayStep(v, e), t)
  {
    ChargesAfterReserved(v, e, DayEnding(t));
    if Within(e.at.value, DayEnding(t)) {
      WindowArgument(v, spendAt, e.at.value, t);
    } else if ReservedWithin(ReplayStep(v, e), DayEnding(t)) {
      assert ReservedWithin(v, DayEnding(t));
    }
  }

  lemma KeepDayCapped(c: Caps, s: State, a: Action, t: real)
    requires StageFits(c, s) && Priced(c, Replay(s.log.rows)) && Enabled(c, s, a)
    requires DayCapped(c, Replay(s.log.rows), t)
    ensures DayCapped(c, Replay(Do(s, a).log.rows), t)
  {
    RowsAfter(s, a);
    if !s.log.torn && RowOf(s, a).Some? {
      RowIsFit(c, s, a);
      if a.Reserve? {
        DayCappedAfterReservation(c, Replay(s.log.rows), RowOf(s, a).value, s.stage.spendAt, t);
      } else {
        DayCappedAfterRow(c, Replay(s.log.rows), RowOf(s, a).value, t);
      }
    }
  }

  lemma KeepLog(c: Caps, rows: seq<Event>, e: Event)
    requires LogFits(c, rows) && RowFits(c, Replay(rows), e)
    requires e.Reserved? ==> BreakerWalk(rows).None?
    ensures LogFits(c, rows + [e])
  {
    ReplayAppend(rows, e);
    KeepCoherent(c, Replay(rows), e);
    KeepPriced(c, Replay(rows), e);
    KeepOneUnaccounted(c, Replay(rows), e);
    KeepOrphanTrail(c, rows, e);
    KeepBreakerLaw(c, rows, e);
  }

  lemma KeepLogFits(c: Caps, s: State, a: Action)
    requires LogFits(c, s.log.rows) && TornIsDamage(s.log) && StageFits(c, s) && Enabled(c, s, a)
    ensures LogFits(c, Do(s, a).log.rows) && TornIsDamage(Do(s, a).log)
  {
    if RowOf(s, a).Some? && !s.log.torn {
      RowIsFit(c, s, a);
      KeepLog(c, s.log.rows, RowOf(s, a).value);
    } else if a.Tear? && !s.log.torn {
      KeepLog(c, s.log.rows, Unreadable);
    }
  }

  lemma Keep(c: Caps, s: State, a: Action)
    requires Inv(c, s) && Enabled(c, s, a)
    ensures Inv(c, Do(s, a))
  {
    KeepLogFits(c, s, a);
    KeepAccounted(c, s, a);
    KeepStage(c, s, a);
    forall t ensures DayCapped(c, Replay(Do(s, a).log.rows), t) {
      KeepDayCapped(c, s, a, t);
    }
  }
}
