// The job registry's append-only log and everything that is read out of it: the
// replayed views, the breaker, and the trailing-day spend.
module RegistryLog {
  import opened Prelude
  import opened Sums

  type Key = string
  type Handle = string
  type Ticket = string
  type Command = seq<string>

  const SECONDS_PER_DAY: real := 86400.0

  datatype Completion = Completion(command: Command, exitCode: int, wallSeconds: real, digest: string)

  // One line of the log. A line no parser accepts is Unreadable; Submitted is
  // the shape written before reservations existed.
  datatype Event =
    | Unreadable
    | Reserved(key: Key, at: Number, ticket: Ticket, deadlineAt: Number, cost: Number, command: Command)
    | Bound(key: Key, handle: Handle)
    | Released(key: Key)
    | Orphaned(key: Key)
    | Abandoned(key: Key)
    | Submitted(handle: Handle, at: Number, ticket: Ticket, deadlineAt: Number, cost: Number)
    | Resolved(handle: Handle, artifact: string, done: Option<Completion>)
    | Lost(handle: Handle)
    | Tripped
    | Reset

  datatype ReservationState = RESERVED | BOUND | RELEASED | ORPHANED | ABANDONED

  datatype Reservation = Reservation(
    ticket: Ticket, reservedAt: Number, deadlineAt: Number, cost: Number,
    handle: Option<Handle>, state: ReservationState, command: Option<Command>)

  datatype JobState = SUBMITTED | RESOLVED | LOST

  datatype Job = Job(
    ticket: Ticket, submittedAt: Number, deadlineAt: Number, cost: Number, state: JobState,
    artifact: Option<string>, requested: Option<Command>, done: Option<Completion>)

  datatype View = View(jobs: map<Handle, Job>, held: map<Key, Reservation>)

  predicate IsOrphaned(r: Reservation) { r.handle.None? && r.state == RESERVED }

  predicate IsCharged(r: Reservation) { r.state != RELEASED }

  predicate IsUnaccounted(r: Reservation) { r.handle.None? && r.state in {RESERVED, ORPHANED} }

  ghost function Unaccounted(v: View): set<Key>
  {
    set k | k in v.held && IsUnaccounted(v.held[k])
  }

  ghost function Outstanding(v: View): set<Handle>
  {
    set h | h in v.jobs && v.jobs[h].state == SUBMITTED
  }

  // ---- replay --------------------------------------------------------------

  function JobOf(r: Reservation): Job
  {
    Job(r.ticket, r.reservedAt, r.deadlineAt, r.cost, SUBMITTED, None, r.command, None)
  }

  function WithState(v: View, key: Key, state: ReservationState): View
  {
    if key in v.held then v.(held := v.held[key := v.held[key].(state := state)]) else v
  }

  function ReplayStep(v: View, e: Event): View
  {
    match e
    case Reserved(key, at, ticket, deadlineAt, cost, command) =>
      var r := Reservation(ticket, at, deadlineAt, cost, None, RESERVED,
                           if command == [] then None else Some(command));
      v.(held := v.held[key := r])
    case Bound(key, handle) =>
      if key !in v.held then v else
      var r := v.held[key].(handle := Some(handle), state := BOUND);
      View(v.jobs[handle := JobOf(r)], v.held[key := r])
    case Released(key) => WithState(v, key, RELEASED)
    case Orphaned(key) => WithState(v, key, ORPHANED)
    case Abandoned(key) => WithState(v, key, ABANDONED)
    case Submitted(handle, at, ticket, deadlineAt, cost) =>
      v.(jobs := v.jobs[handle := Job(ticket, at, deadlineAt, cost, SUBMITTED, None, None, None)])
    case Resolved(handle, artifact, done) =>
      if handle !in v.jobs then v else
      v.(jobs := v.jobs[handle := v.jobs[handle].(state := RESOLVED, artifact := Some(artifact), done := done)])
    case Lost(handle) =>
      if handle !in v.jobs then v else
      v.(jobs := v.jobs[handle := v.jobs[handle].(state := LOST, artifact := None, done := None)])
    case _ => v
  }

  function Replay(rows: seq<Event>): View
  {
    if rows == [] then View(map[], map[])
    else ReplayStep(Replay(rows[..|rows| - 1]), rows[|rows| - 1])
  }

  lemma ReplayAppend(rows: seq<Event>, e: Event)
    ensures Replay(rows + [e]) == ReplayStep(Replay(rows), e)
  {
    assert (rows + [e])[..|rows|] == rows;
  }

  ghost function Damage(rows: seq<Event>): nat
  {
    if rows == [] then 0
    else Damage(rows[..|rows| - 1]) + (if rows[|rows| - 1] == Unreadable then 1 else 0)
  }

  lemma {:induction false} DamageIsAbsence(rows: seq<Event>)
    ensures Damage(rows) == 0 <==> Unreadable !in rows
  {
    if rows != [] {
      var init := rows[..|rows| - 1];
      DamageIsAbsence(init);
      assert rows == init + [rows[|rows| - 1]];
    }
  }

  // ---- the breaker ---------------------------------------------------------

  predicate Opens(e: Event) { e.Lost? || e.Orphaned? || e.Tripped? }

  // The newest opening row that no reset follows, found by walking backwards.
  ghost function BreakerWalk(rows: seq<Event>): Option<Event>
  {
    if rows == [] then None
    else
      var last := rows[|rows| - 1];
      if last.Reset? then None
      else if Opens(last) then Some(last)
      else BreakerWalk(rows[..|rows| - 1])
  }

  ghost predicate ResetAfter(rows: seq<Event>, i: nat)
  {
    exists j :: i < j < |rows| && rows[j] == Reset
  }

  lemma {:induction false} BreakerWalkMeaning(rows: seq<Event>)
    ensures BreakerWalk(rows).None? <==> forall i :: 0 <= i < |rows| && Opens(rows[i]) ==> ResetAfter(rows, i)
  {
    if rows != [] {
      var n := |rows| - 1;
      var init := rows[..n];
      BreakerWalkMeaning(init);
      if rows[n].Reset? {
        assert forall i :: 0 <= i < |rows| && Opens(rows[i]) ==> i < n && rows[n] == Reset;
      } else if Opens(rows[n]) {
        assert !ResetAfter(rows, n);
      } else {
        forall i | 0 <= i < n && Opens(rows[i]) ensures ResetAfter(rows, i) <==> ResetAfter(init, i) {
          if ResetAfter(rows, i) {
            var j :| i < j < |rows| && rows[j] == Reset;
            assert init[j] == Reset;
          }
        }
        assert forall i :: 0 <= i < n ==> init[i] == rows[i];
      }
    }
  }

  datatype BreakerReason = StillUnaccounted(keys: set<Key>) | OpenedBy(row: Event)

  // Unaccounted reservations are asked about first, so no reset can hide one.
  ghost function Breaker(rows: seq<Event>): Option<BreakerReason>
  {
    var open := Unaccounted(Replay(rows));
    if open != {} then Some(StillUnaccounted(open))
    else match BreakerWalk(rows)
      case Some(row) => Some(OpenedBy(row))
      case None => None
  }

  // The newest incident: nothing since opened the breaker or reset it.
  ghost predicate NewestIncident(rows: seq<Event>, i: int)
  {
    && 0 <= i < |rows| && (rows[i].Lost? || rows[i].Orphaned? || rows[i].Tripped?)
    && forall j :: i < j < |rows| ==> !rows[j].Reset? && !rows[j].Lost? && !rows[j].Orphaned? && !rows[j].Tripped?
  }

  // The walk names the newest incident, if no reset follows it.
  lemma {:induction false} BreakerWalkNames(rows: seq<Event>)
    ensures BreakerWalk(rows).Some? <==> exists i :: NewestIncident(rows, i)
    ensures forall i :: NewestIncident(rows, i) ==> BreakerWalk(rows) == Some(rows[i])
  {
    if rows != [] {
      var before, last := rows[..|rows| - 1], rows[|rows| - 1];
      BreakerWalkNames(before);
      if !last.Reset? && !Opens(last) {
        forall i | NewestIncident(before, i) ensures NewestIncident(rows, i) {
        }
        forall i | NewestIncident(rows, i) ensures NewestIncident(before, i) && before[i] == rows[i] {
          assert rows[|rows| - 1] == last && i < |before|;
          assert forall j :: i < j < |before| ==> before[j] == rows[j];
        }
      } else if !last.Reset? {
        assert NewestIncident(rows, |rows| - 1);
      }
    }
  }

  // Money or a job that nobody can account for comes first, then the newest
  // incident that was not reset.
  ghost predicate ReasonOf(rows: seq<Event>, reason: Option<BreakerReason>)
  {
    var held := Replay(rows).held;
    var open := set k | k in held && held[k].handle.None? && (held[k].state == RESERVED || held[k].state == ORPHANED);
    if open != {} then reason == Some(StillUnaccounted(open))
    else if exists i :: NewestIncident(rows, i) then exists i :: NewestIncident(rows, i) && reason == Some(OpenedBy(rows[i]))
    else reason.None?
  }

  lemma BreakerMeans(rows: seq<Event>)
    ensures ReasonOf(rows, Breaker(rows))
  {
    BreakerWalkNames(rows);
    var held := Replay(rows).held;
    assert Unaccounted(Replay(rows)) ==
      set k | k in held && held[k].handle.None? && (held[k].state == RESERVED || held[k].state == ORPHANED);
  }

  lemma {:induction false} DamageCounts(rows: seq<Event>)
    ensures Damage(rows) == |set i | 0 <= i < |rows| && rows[i] == Unreadable|
  {
    var damaged := set i | 0 <= i < |rows| && rows[i] == Unreadable;
    if rows != [] {
      var n := |rows| - 1;
      var before := set i | 0 <= i < n && rows[..n][i] == Unreadable;
      DamageCounts(rows[..n]);
      assert forall i :: i in before <==> 0 <= i < n && rows[i] == Unreadable;
      assert damaged == before + if rows[n] == Unreadable then {n} else {};
    }
  }

  // ---- spend ---------------------------------------------------------------

  datatype Window = Window(lo: real, hi: Option<real>)

  ghost predicate Within(at: real, w: Window)
  {
    w.lo <= at && (w.hi.Some? ==> at <= w.hi.value)
  }

  // What a row contributes to a window's total; nothing when it cannot be placed.
  ghost function Charge(at: Number, cost: Number, w: Window): real
  {
    if at.Finite? && cost.Finite? && Within(at.value, w) then cost.value else 0.0
  }

  // A row that can be placed, and priced if it lies in the window.
  ghost predicate Countable(at: Number, cost: Number, w: Window)
  {
    at.Finite? && (Within(at.value, w) ==> cost.Finite? && cost.value >= 0.0)
  }

  predicate Unbound(r: Reservation) { r.handle.None? && IsCharged(r) }

  ghost predicate AllCountable(v: View, w: Window)
  {
    && (forall h :: h in v.jobs ==> Countable(v.jobs[h].submittedAt, v.jobs[h].cost, w))
    && (forall k :: k in v.held && Unbound(v.held[k]) ==> Countable(v.held[k].reservedAt, v.held[k].cost, w))
  }

  ghost function JobCharges(v: View, w: Window): map<Handle, real>
  {
    map h | h in v.jobs :: Charge(v.jobs[h].submittedAt, v.jobs[h].cost, w)
  }

  ghost function UnboundCharges(v: View, w: Window): map<Key, real>
  {
    map k | k in v.held :: if Unbound(v.held[k]) then Charge(v.held[k].reservedAt, v.held[k].cost, w) else 0.0
  }

  // The total the registry computes: jobs with a handle, plus reservations
  // without one that were not released.
  ghost function TwoViewTotal(v: View, w: Window): real
  {
    MapSum(JobCharges(v, w)) + MapSum(UnboundCharges(v, w))
  }

  datatype Refusal = BreakerOpen | CostCap | Conflict | BadInput | Declined | OutcomeUnknown | CannotCollect

  // A damaged log, or a row that cannot be placed or priced, makes spend unknown.
  ghost function Spend(rows: seq<Event>, cutoff: real): Result<real, Refusal>
  {
    var w := Window(cutoff, None);
    if Damage(rows) > 0 || !AllCountable(Replay(rows), w) then Refused(BreakerOpen)
    else Ok(TwoViewTotal(Replay(rows), w))
  }

  // ---- one sum instead of two ----------------------------------------------

  // How the two views fit together in every log the protocol can write.
  ghost predicate Coherent(v: View)
  {
    && (forall k :: k in v.held ==> (v.held[k].handle.Some? <==> v.held[k].state == BOUND))
    && (forall k :: k in v.held && v.held[k].handle.Some? ==> MirrorsJob(v, v.held[k]))
    && (forall j, k :: j in v.held && k in v.held && v.held[j].handle.Some? && v.held[j].handle == v.held[k].handle ==> j == k)
  }

  ghost predicate MirrorsJob(v: View, r: Reservation)
    requires r.handle.Some?
  {
    r.handle.value in v.jobs &&
    var j := v.jobs[r.handle.value];
    j.ticket == r.ticket && j.submittedAt == r.reservedAt && j.deadlineAt == r.deadlineAt &&
    j.cost == r.cost && j.requested == r.command
  }

  ghost function Bindings(v: View): map<Key, Handle>
  {
    map k | k in v.held && v.held[k].handle.Some? :: v.held[k].handle.value
  }

  // Every intent ever recorded, counted once, unless the substrate said it
  // started nothing.
  ghost function IntentCharges(v: View, w: Window): map<Key, real>
  {
    map k | k in v.held :: if v.held[k].state != RELEASED then Charge(v.held[k].reservedAt, v.held[k].cost, w) else 0.0
  }

  // Jobs recorded before reservations existed.
  ghost function LegacyCharges(v: View, w: Window): map<Handle, real>
  {
    map h | h in v.jobs :: if h in Bindings(v).Values then 0.0 else Charge(v.jobs[h].submittedAt, v.jobs[h].cost, w)
  }

  ghost function OneViewTotal(v: View, w: Window): real
  {
    MapSum(IntentCharges(v, w)) + MapSum(LegacyCharges(v, w))
  }

  ghost function BoundIntents(v: View, w: Window): map<Key, real>
  {
    map k | k in v.held :: if k in Bindings(v) then IntentCharges(v, w)[k] else 0.0
  }

  ghost function BoundJobs(v: View, w: Window): map<Handle, real>
  {
    map h | h in v.jobs :: if h in Bindings(v).Values then JobCharges(v, w)[h] else 0.0
  }

  lemma IntentsSplit(v: View, w: Window)
    requires Coherent(v)
    ensures MapSum(IntentCharges(v, w)) == MapSum(BoundIntents(v, w)) + MapSum(UnboundCharges(v, w))
  {
    SumPointwise(IntentCharges(v, w), BoundIntents(v, w), UnboundCharges(v, w));
  }

  lemma JobsSplit(v: View, w: Window)
    ensures MapSum(JobCharges(v, w)) == MapSum(BoundJobs(v, w)) + MapSum(LegacyCharges(v, w))
  {
    SumPointwise(JobCharges(v, w), BoundJobs(v, w), LegacyCharges(v, w));
  }

  // Nothing is counted twice and nothing is dropped between the two views.
  lemma Conservation(v: View, w: Window)
    requires Coherent(v)
    ensures TwoViewTotal(v, w) == OneViewTotal(v, w)
  {
    IntentsSplit(v, w);
    JobsSplit(v, w);
    SumTransfer(BoundIntents(v, w), BoundJobs(v, w), Bindings(v));
  }
}
