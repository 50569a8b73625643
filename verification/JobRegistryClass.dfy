// The registry's methods over its log file. Every change a method makes is a
// step of the protocol, and at every gap other processes may take theirs.
module JobRegistryClass {
  import opened Prelude
  import opened Sums
  import opened RegistryLog
  import opened RegistryProtocol
  import opened RegistryTheorems
  import opened RegistryInterference

  // What a substrate can answer to a submission. `Raises` is any exception but
  // the one that states nothing was started; `began` is what the caller cannot see.
  datatype Reply = Started(handle: Handle) | Declines | Raises(began: bool)

  datatype Substrate = Substrate(quote: (Ticket, real) -> Number, reply: set<Handle> -> Reply)

  // A substrate's handles are its own: it never returns one that names a job.
  ghost predicate OwnsItsHandles(sub: Substrate)
  {
    forall used: set<Handle> :: sub.reply(used).Started? ==> sub.reply(used).handle !in used
  }

  // Answers about running jobs; None where the call raises.
  datatype World = World(
    poll: Handle -> Option<JobState>,
    artifact: Handle -> Option<string>,
    completion: Handle -> Option<Option<Completion>>)

  ghost predicate CanResolve(w: World, h: Handle)
  {
    w.artifact(h).Some? && w.completion(h).Some?
  }

  ghost predicate Ready(w: World, h: Handle)
  {
    w.poll(h) == Some(RESOLVED) && CanResolve(w, h)
  }

  ghost function ReadyAmong(handles: set<Handle>, w: World): set<Handle>
  {
    set h | h in handles && Ready(w, h)
  }

  ghost predicate Fails(w: World, h: Handle)
  {
    w.poll(h).None? || (w.poll(h) == Some(RESOLVED) && !CanResolve(w, h))
  }

  ghost function FailedAmong(handles: set<Handle>, w: World): set<Handle>
  {
    set h | h in handles && Fails(w, h)
  }

  ghost predicate Overdue(j: Job, now: real)
  {
    j.deadlineAt.Finite? && j.deadlineAt.value <= now
  }

  // Looking at this job ends the whole sweep.
  ghost predicate SweepFails(j: Job, now: real, h: Handle, w: World)
  {
    !j.deadlineAt.Finite? || (Overdue(j, now) && Fails(w, h))
  }

  ghost function RaisingAmong(was: View, now: real, handles: set<Handle>, w: World): set<Handle>
    requires handles <= was.jobs.Keys
  {
    set h | h in handles && SweepFails(was.jobs[h], now, h, w)
  }

  ghost function LossesAmong(was: View, now: real, handles: set<Handle>, w: World): map<Handle, Ticket>
    requires handles <= was.jobs.Keys
  {
    map h | h in handles && Overdue(was.jobs[h], now) && w.poll(h) != Some(RESOLVED) :: was.jobs[h].ticket
  }

  lemma OneMoved(left: set<Handle>, worked: set<Handle>, h: Handle)
    requires h in left && left !! worked
    ensures left - {h} + (worked + {h}) == left + worked && left - {h} !! worked + {h}
  {
  }

  lemma LossesGrow(was: View, now: real, handles: set<Handle>, h: Handle, w: World)
    requires handles <= was.jobs.Keys && h in was.jobs && h !in handles
    ensures LossesAmong(was, now, handles + {h}, w) ==
            if Overdue(was.jobs[h], now) && w.poll(h) != Some(RESOLVED)
            then LossesAmong(was, now, handles, w)[h := was.jobs[h].ticket] else LossesAmong(was, now, handles, w)
  {
  }

  // Each of the given jobs once, with the ticket that waits on it.
  ghost predicate HandsBack(was: View, out: seq<Finished>, jobs: set<Handle>, w: World)
  {
    && (forall i :: 0 <= i < |out| ==>
          out[i].handle in jobs && out[i].handle in was.jobs && out[i].ticket == was.jobs[out[i].handle].ticket &&
          w.artifact(out[i].handle) == Some(out[i].artifact))
    && (forall i, j :: 0 <= i < j < |out| ==> out[i].handle != out[j].handle)
    && (forall h :: h in jobs ==> exists i :: 0 <= i < |out| && out[i].handle == h)
  }

  datatype Finished = Finished(handle: Handle, ticket: Ticket, artifact: string)

  ghost function Readable(rows: seq<Event>): seq<Event>
  {
    if rows == [] then []
    else if rows[|rows| - 1] == Unreadable then Readable(rows[..|rows| - 1])
    else Readable(rows[..|rows| - 1]) + [rows[|rows| - 1]]
  }

  lemma {:induction false} ReplayOfReadable(rows: seq<Event>)
    ensures Replay(Readable(rows)) == Replay(rows)
  {
    if rows != [] {
      ReplayOfReadable(rows[..|rows| - 1]);
      ReplayAppend(Readable(rows[..|rows| - 1]), rows[|rows| - 1]);
    }
  }

  lemma {:induction false} WalkOfReadable(rows: seq<Event>)
    ensures BreakerWalk(Readable(rows)) == BreakerWalk(rows)
  {
    if rows != [] {
      var init, last := rows[..|rows| - 1], rows[|rows| - 1];
      WalkOfReadable(init);
      assert (Readable(init) + [last])[..|Readable(init)|] == Readable(init);
    }
  }

  function CheckedUsd(value: Number): (r: Result<real, Refusal>)
    ensures r.Ok? <==> value.Finite? && value.value >= 0.0
    ensures r.Ok? ==> r.value == value.value
    ensures r.Refused? ==> r.why == BadInput
  {
    if value.Finite? && value.value >= 0.0 then Ok(value.value) else Refused(BadInput)
  }

  function CheckedSeconds(value: Number): (r: Result<real, Refusal>)
    ensures r.Ok? <==> value.Finite? && value.value > 0.0
    ensures r.Ok? ==> r.value == value.value
    ensures r.Refused? ==> r.why == BadInput
  {
    if value.Finite? && value.value > 0.0 then Ok(value.value) else Refused(BadInput)
  }

  // A price is accepted exactly when the day still adds up with it, and one that
  // is accepted takes nothing off the day.
  lemma AcceptedPricesKeepTheDayCountable(rows: seq<Event>, e: Event, cutoff: real)
    requires e.Reserved? && e.key !in Replay(rows).held && e.at.Finite? && cutoff <= e.at.value
    requires Spend(rows, cutoff).Ok?
    ensures CheckedUsd(e.cost).Ok? <==> Spend(rows + [e], cutoff).Ok?
    ensures CheckedUsd(e.cost).Ok? ==>
              Spend(rows + [e], cutoff).value == Spend(rows, cutoff).value + e.cost.value >= Spend(rows, cutoff).value
  {
    var v, w := Replay(rows), Window(cutoff, None);
    ReplayAppend(rows, e);
    assert (rows + [e])[..|rows|] == rows;
    var v' := Replay(rows + [e]);
    assert v'.held[e.key].cost == e.cost && Unbound(v'.held[e.key]);
    ChargesAfterReserved(v, e, w);
  }

  // A deadline is accepted exactly when no sweep made at the moment of submission
  // can take the job for overdue or fail to compare it; it is then overdue from
  // that many seconds on.
  lemma AcceptedDeadlinesLieAhead(seconds: Number, at: real, ticket: Ticket, cost: Number)
    ensures var deadlineAt := if seconds.Finite? then Finite(at + seconds.value) else seconds;
            var j := Job(ticket, Finite(at), deadlineAt, cost, SUBMITTED, None, None, None);
            && (CheckedSeconds(seconds).Ok? <==> forall h, w :: !SweepFails(j, at, h, w))
            && (CheckedSeconds(seconds).Ok? ==> forall now :: Overdue(j, now) <==> at + seconds.value <= now)
  {
    var deadlineAt := if seconds.Finite? then Finite(at + seconds.value) else seconds;
    var j := Job(ticket, Finite(at), deadlineAt, cost, SUBMITTED, None, None, None);
    assert SweepFails(j, at, "", World(_ => None, _ => None, _ => None)) || CheckedSeconds(seconds).Ok?;
  }

  // When a submission read the breaker, looked its key up, and priced itself.
  datatype Looks = Looks(gate: seq<Action>, key: seq<Action>, price: seq<Action>)

  // What the caps and the day leave of a quote, on the log of that moment.
  ghost function Affordable(c: Caps, s: State, quote: Number): Result<real, Refusal>
  {
    var spend := Spend(s.log.rows, s.clock - 86400.0);
    if !quote.Finite? || quote.value < 0.0 then Refused(BadInput)
    else if quote.value > c.perJob then Refused(CostCap)
    else if spend.Refused? then Refused(BreakerOpen)
    else if spend.value + quote.value > c.perDay then Refused(CostCap)
    else Ok(quote.value)
  }

  // Every reservation without a handle has its orphaned row, or the log shows damage.
  ghost predicate AllEscalated(s: State)
  {
    Unreadable !in s.log.rows ==> forall k :: !Pending(Replay(s.log.rows), k)
  }

  // What a key used before answers: its own record if it is cleanly bound.
  ghost function Reused(v: View, key: Key): Result<(Handle, Job), Refusal>
    requires key in v.held
  {
    var r := v.held[key];
    if r.state == BOUND && r.handle.Some? && r.handle.value in v.jobs then Ok((r.handle.value, v.jobs[r.handle.value]))
    else Refused(Conflict)
  }

  // The answer to a submission that does not reach the substrate, the first check
  // that speaks deciding; None if it is cleared.
  ghost function AnswerOf(c: Caps, start: State, looks: Looks, key: Key, blank: bool, quote: Number): Option<Result<(Handle, Job), Refusal>>
  {
    var gate, look, price := After(start, looks.gate), After(start, looks.key), After(start, looks.price);
    if Breaker(gate.log.rows).Some? || Unreadable in gate.log.rows then Some(Refused(BreakerOpen))
    else if blank then Some(Refused(BadInput))
    else if key in Replay(look.log.rows).held then Some(Reused(Replay(look.log.rows), key))
    else if Affordable(c, price, quote).Refused? then Some(Refused(Affordable(c, price, quote).why))
    else None
  }

  // What a reservation row has to say about the submission it was written for.
  ghost predicate Intended(r: Reservation, ticket: Ticket, command: Command, at: real, seconds: real, cost: real)
  {
    && r.command == (if command == [] then None else Some(command)) && r.ticket == ticket
    && r.reservedAt == Finite(at) && r.deadlineAt == Finite(at + seconds) && r.cost == Finite(cost)
  }

  predicate Blank(key: Key)
  {
    forall i :: 0 <= i < |key| ==> key[i] in {' ', '\t', '\n', '\r'}
  }

  ghost predicate JobsCountable(jobs: map<Handle, Job>, w: Window)
  {
    forall h :: h in jobs ==> Countable(jobs[h].submittedAt, jobs[h].cost, w)
  }

  ghost predicate UnboundCountable(held: map<Key, Reservation>, w: Window)
  {
    forall k :: k in held && Unbound(held[k]) ==> Countable(held[k].reservedAt, held[k].cost, w)
  }

  // The two loops over the two dictionaries come to the day's total.
  lemma SpendInTwoParts(rows: seq<Event>, jobs: map<Handle, Job>, held: map<Key, Reservation>, cutoff: real)
    requires View(jobs, held) == Replay(rows) && Damage(rows) == 0
    ensures var w := Window(cutoff, None);
            Spend(rows, cutoff) ==
            if JobsCountable(jobs, w) && UnboundCountable(held, w)
            then Ok(MapSum(JobCharges(View(jobs, map[]), w)) + MapSum(UnboundCharges(View(map[], held), w)))
            else Refused(BreakerOpen)
  {
    var w, v := Window(cutoff, None), View(jobs, held);
    assert JobCharges(v, w) == JobCharges(View(jobs, map[]), w);
    assert UnboundCharges(v, w) == UnboundCharges(View(map[], held), w);
  }

  // Passing the checks is what the protocol asks of an admission.
  lemma ChecksClear(c: Caps, s: State, key: Key, ticket: Ticket, command: Command, seconds: real, cost: real)
    requires s.stage.Free? && Breaker(s.log.rows).None? && key !in Replay(s.log.rows).held && seconds > 0.0
    requires 0.0 <= cost <= c.perJob && Spend(s.log.rows, s.clock - SECONDS_PER_DAY).Ok?
    requires Spend(s.log.rows, s.clock - SECONDS_PER_DAY).value + cost <= c.perDay
    ensures Enabled(c, s, Admit(key, ticket, command, seconds, cost))
  {
  }

  lemma ResetCloses(rows: seq<Event>)
    ensures Replay(rows + [Reset]) == Replay(rows)
    ensures Breaker(rows + [Reset]) ==
            if Unaccounted(Replay(rows)) == {} then None else Some(StillUnaccounted(Unaccounted(Replay(rows))))
  {
    ReplayAppend(rows, Reset);
  }

  // A loss closes one job and touches no other.
  lemma LoseRow(s: State, h: Handle)
    requires TornIsDamage(s.log) && h in Outstanding(Replay(s.log.rows))
    ensures var v, v' := Replay(s.log.rows), Replay(Do(s, Lose(h)).log.rows);
            && (Unreadable !in Do(s, Lose(h)).log.rows ==>
                  h in v'.jobs && v'.jobs[h] == v.jobs[h].(state := LOST, artifact := None, done := None))
            && (forall g :: g != h && g in v.jobs ==> g in v'.jobs && v'.jobs[g] == v.jobs[g])
            && (Unreadable in s.log.rows ==> Unreadable in Do(s, Lose(h)).log.rows)
  {
    RowsAfter(s, Lose(h));
  }

  lemma AbandonKeeps(s: State, key: Key)
    requires TornIsDamage(s.log) && key in Replay(s.log.rows).held
    requires Replay(s.log.rows).held[key].state in {ORPHANED, ABANDONED}
    ensures var rows' := Do(s, Abandon(key)).log.rows;
            && key in Replay(rows').held && IsCharged(Replay(rows').held[key])
            && (Unreadable !in rows' ==> Replay(rows').held[key].state == ABANDONED)
  {
    var v := Replay(s.log.rows);
    RowsAfter(s, Abandon(key));
    assert ReplayStep(v, Abandoned(key)).held[key] == v.held[key].(state := ABANDONED);
  }

  class JobRegistry {
    const caps: Caps
    const defaultDeadline: real
    var rows: seq<Event>
    var torn: bool
    var clock: real
    var damaged: nat
    ghost const start: State
    ghost var history: seq<Action>
    ghost var state: State

    ghost predicate Valid()
      reads this
    {
      && 0.0 <= caps.perJob && 0.0 <= caps.perDay && 0.0 < defaultDeadline
      && Initial(start) && Run(caps, start, history) && state == After(start, history)
      && state.log == Log(rows, torn) && state.clock == clock
    }

    ghost function Seen(): View
      reads this
    {
      Replay(rows)
    }

    function HandlesInUse(): set<Handle>
      reads this
    {
      Replay(rows).jobs.Keys
    }

    constructor (perJob: real, perDay: real, deadline: real, existing: seq<Event>, now: real)
      requires 0.0 <= perJob && 0.0 <= perDay && 0.0 < deadline
      requires forall i :: 0 <= i < |existing| ==> LegacyRow(existing[i])
      ensures Valid() && rows == existing && !torn && clock == now && history == []
      ensures caps == Caps(perJob, perDay) && defaultDeadline == deadline
    {
      caps := Caps(perJob, perDay);
      defaultDeadline := deadline;
      rows, torn, clock, damaged := existing, false, now, 0;
      start := State(Log(existing, false), now, Free, [], {});
      history, state := [], State(Log(existing, false), now, Free, [], {});
    }

    lemma Sound()
      requires Valid()
      ensures Inv(caps, state)
    {
      InitiallyKept(caps, start);
      RunKeeps(caps, start, history);
    }

    lemma Fits()
      requires Valid()
      ensures StageFits(caps, state) && TornIsDamage(state.log)
    {
      Sound();
    }

    // -- the log -------------------------------------------------------------

    // Append one row. Glued to a torn last line, it is lost with that line.
    method Append(e: Event, ghost a: Action)
      requires Valid() && Enabled(caps, state, a) && RowOf(state, a) == Some(e)
      modifies this
      ensures Valid() && state == Do(old(state), a) && history == old(history) + [a] && clock == old(clock)
    {
      StepRun(caps, start, history, a);
      if torn {
        torn := false;
      } else {
        rows := rows + [e];
      }
      history := history + [a];
      state := Do(state, a);
    }

    // A step that leaves no row.
    ghost method Note(a: Action)
      requires Valid() && Enabled(caps, state, a) && RowOf(state, a).None? && !a.Tear? && !a.Advance?
      modifies this`history, this`state
      ensures Valid() && state == Do(old(state), a) && history == old(history) + [a]
    {
      StepRun(caps, start, history, a);
      history := history + [a];
      state := Do(state, a);
    }

    // Whatever the other processes do here. The body does nothing; callers may
    // rely on nothing but the contract.
    method Others(ghost who: Rivals) returns (ghost more: seq<Action>)
      requires Valid()
      modifies this
      ensures Valid() && Interleaved(caps, old(state), more, who)
      ensures state == After(old(state), more) && history == old(history) + more
    {
      more := [];
      assert history + more == history;
    }

    // Wait for the admission lock while the other processes go on.
    method AwaitLock() returns (ghost more: seq<Action>)
      requires Valid()
      modifies this
      ensures Valid() && state.stage.Free? && Interleaved(caps, old(state), more, OtherSubmitters)
      ensures state == After(old(state), more) && history == old(history) + more
    {
      more := [];
      assert history + more == history;
      if !state.stage.Free? {
        more := [Crash];
        assert more[1..] == [] && Run(caps, Do(state, Crash), []);
        Note(Crash);
      }
    }

    method Events() returns (events: seq<Event>)
      modifies this`damaged
      ensures events == Readable(rows) && damaged == Damage(rows)
    {
      events, damaged := [], 0;
      for i := 0 to |rows|
        invariant events == Readable(rows[..i]) && damaged == Damage(rows[..i])
      {
        assert rows[..i + 1][..i] == rows[..i];
        if rows[i] == Unreadable {
          damaged := damaged + 1;
        } else {
          events := events + [rows[i]];
        }
      }
      assert rows[..|rows|] == rows;
    }

    static method Absorb(before: map<Handle, Job>, reserved: map<Key, Reservation>, e: Event)
      returns (jobs: map<Handle, Job>, held: map<Key, Reservation>)
      ensures View(jobs, held) == ReplayStep(View(before, reserved), e)
    {
      jobs, held := before, reserved;
      match e {
        case Reserved(key, at, ticket, deadlineAt, cost, command) =>
          held := held[key := Reservation(ticket, at, deadlineAt, cost, None, RESERVED,
                                          if command == [] then None else Some(command))];
        case Bound(key, handle) =>
          if key in held {
            held := held[key := held[key].(handle := Some(handle), state := BOUND)];
            jobs := jobs[handle := JobOf(held[key])];
          }
        case Released(key) =>
          if key in held { held := held[key := held[key].(state := RELEASED)]; }
        case Orphaned(key) =>
          if key in held { held := held[key := held[key].(state := ORPHANED)]; }
        case Abandoned(key) =>
          if key in held { held := held[key := held[key].(state := ABANDONED)]; }
        case Submitted(handle, at, ticket, deadlineAt, cost) =>
          jobs := jobs[handle := Job(ticket, at, deadlineAt, cost, SUBMITTED, None, None, None)];
        case Resolved(handle, artifact, done) =>
          if handle in jobs {
            jobs := jobs[handle := jobs[handle].(state := RESOLVED, artifact := Some(artifact), done := done)];
          }
        case Lost(handle) =>
          if handle in jobs {
            jobs := jobs[handle := jobs[handle].(state := LOST, artifact := None, done := None)];
          }
        case _ =>
      }
    }

    method ReplayLog() returns (jobs: map<Handle, Job>, held: map<Key, Reservation>)
      modifies this`damaged
      ensures View(jobs, held) == Replay(rows) && damaged == Damage(rows)
    {
      var events := Events();
      jobs, held := map[], map[];
      for i := 0 to |events|
        invariant View(jobs, held) == Replay(events[..i]) && damaged == Damage(rows)
      {
        assert events[..i + 1][..i] == events[..i];
        jobs, held := Absorb(jobs, held, events[i]);
      }
      assert events[..|events|] == events;
      ReplayOfReadable(rows);
    }

    // -- the breaker and the caps --------------------------------------------

    method BreakerReason() returns (reason: Option<BreakerReason>)
      modifies this`damaged
      ensures reason == Breaker(rows) && ReasonOf(rows, reason) && damaged == Damage(rows)
    {
      BreakerMeans(rows);
      var _, held := ReplayLog();
      var open := set k | k in held && IsUnaccounted(held[k]);
      if open != {} {
        return Some(StillUnaccounted(open));
      }
      var events := Events();
      WalkOfReadable(rows);
      var i := |events|;
      assert events[..i] == events;
      while i > 0
        invariant 0 <= i <= |events|
        invariant BreakerWalk(events) == BreakerWalk(events[..i])
      {
        i := i - 1;
        assert events[..i + 1][..i] == events[..i];
        if events[i].Reset? {
          return None;
        }
        if Opens(events[i]) {
          return Some(OpenedBy(events[i]));
        }
      }
      return None;
    }

    // Add up what the jobs that have a handle cost since `cutoff`.
    static method ChargeJobs(jobs: map<Handle, Job>, cutoff: real) returns (r: Result<real, Refusal>)
      ensures r.Ok? <==> JobsCountable(jobs, Window(cutoff, None))
      ensures r.Ok? ==> r.value == MapSum(JobCharges(View(jobs, map[]), Window(cutoff, None)))
      ensures r.Refused? ==> r.why == BreakerOpen
    {
      ghost var w := Window(cutoff, None);
      ghost var charges := JobCharges(View(jobs, map[]), w);
      var total, left := 0.0, jobs.Keys;
      RestrictAll(charges);
      assert charges.Keys == left;
      while left != {}
        invariant left <= jobs.Keys
        invariant total + MapSum(Restrict(charges, left)) == MapSum(charges)
        invariant forall h :: h in jobs && h !in left ==> Countable(jobs[h].submittedAt, jobs[h].cost, w)
      {
        var h :| h in left;
        if !jobs[h].submittedAt.Finite? {
          return Refused(BreakerOpen);
        }
        if jobs[h].submittedAt.value >= cutoff {
          var amount := CheckedUsd(jobs[h].cost);
          if amount.Refused? {
            return Refused(BreakerOpen);
          }
          total := total + amount.value;
        }
        RestrictRemove(charges, left, h);
        left := left - {h};
      }
      return Ok(total);
    }

    // Add up what the reservations without a handle cost since `cutoff`.
    static method ChargeUnbound(held: map<Key, Reservation>, cutoff: real) returns (r: Result<real, Refusal>)
      ensures r.Ok? <==> UnboundCountable(held, Window(cutoff, None))
      ensures r.Ok? ==> r.value == MapSum(UnboundCharges(View(map[], held), Window(cutoff, None)))
      ensures r.Refused? ==> r.why == BreakerOpen
    {
      ghost var w := Window(cutoff, None);
      ghost var charges := UnboundCharges(View(map[], held), w);
      var total, left := 0.0, held.Keys;
      RestrictAll(charges);
      assert charges.Keys == left;
      while left != {}
        invariant left <= held.Keys
        invariant total + MapSum(Restrict(charges, left)) == MapSum(charges)
        invariant forall k :: k in held && k !in left && Unbound(held[k]) ==> Countable(held[k].reservedAt, held[k].cost, w)
      {
        var k :| k in left;
        if Unbound(held[k]) {
          if !held[k].reservedAt.Finite? {
            return Refused(BreakerOpen);
          }
          if held[k].reservedAt.value >= cutoff {
            var amount := CheckedUsd(held[k].cost);
            if amount.Refused? {
              return Refused(BreakerOpen);
            }
            total := total + amount.value;
          }
        }
        RestrictRemove(charges, left, k);
        left := left - {k};
      }
      return Ok(total);
    }

    method SpendTodayUsd() returns (r: Result<real, Refusal>)
      modifies this`damaged
      ensures r == Spend(rows, clock - 86400.0) && damaged == Damage(rows)
    {
      var cutoff := clock - SECONDS_PER_DAY;
      var jobs, held := ReplayLog();
      if damaged > 0 {
        return Refused(BreakerOpen);
      }
      SpendInTwoParts(rows, jobs, held, cutoff);
      var byHandle := ChargeJobs(jobs, cutoff);
      if byHandle.Refused? {
        return byHandle;
      }
      var byKey := ChargeUnbound(held, cutoff);
      if byKey.Refused? {
        return byKey;
      }
      return Ok(byHandle.value + byKey.value);
    }

    // -- submission ----------------------------------------------------------

    // The part of an interleaving that a submission under the lock relies on.
    method OthersOutside()
      requires Valid()
      modifies this
      ensures Valid() && Undisturbed(old(state), state) && old(history) <= history
    {
      Sound();
      ghost var before := state;
      ghost var more := Others(OutsideTheLock);
      LockedOut(caps, before, more);
    }

    method EscalateOne(k: Key)
      requires Valid() && state.stage.Free? && Pending(Seen(), k)
      modifies this
      ensures Valid() && state.stage.Free? && old(history) <= history
      ensures state.calls == old(state.calls) && state.started == old(state.started) && clock == old(clock)
      ensures k in Unaccounted(Seen()) && (!old(torn) ==> !torn && Seen().held[k].state == ORPHANED)
      ensures forall j :: j != k && Pending(old(Seen()), j) ==> Pending(Seen(), j)
      ensures forall j :: Pending(Seen(), j) ==> Pending(old(Seen()), j)
      ensures forall j :: j in Unaccounted(old(Seen())) ==> j in Unaccounted(Seen())
      ensures Unreadable in old(rows) ==> Unreadable in rows
    {
      RowsAfter(state, Escalate(k));
      Append(Orphaned(k), Escalate(k));
    }

    // Mark every unbound reservation orphaned, which opens the breaker.
    method EscalateOrphans() returns (found: set<Key>)
      requires Valid() && state.stage.Free?
      modifies this
      ensures Valid() && state.stage.Free? && old(history) <= history
      ensures state.calls == old(state.calls) && state.started == old(state.started) && clock == old(clock)
      ensures found == set k | k in old(Seen()).held && old(Seen()).held[k].state == RESERVED && old(Seen()).held[k].handle.None?
      ensures forall k :: k in found ==> k in Unaccounted(Seen())
      ensures forall k :: Pending(Seen(), k) ==> k in found
      ensures !old(torn) ==> forall k :: k in found ==> k in Seen().held && Seen().held[k].state == ORPHANED
      ensures found == {} ==> rows == old(rows) && torn == old(torn)
      ensures !old(torn) ==> forall k :: !Pending(Seen(), k)
      ensures Unreadable in old(rows) ==> Unreadable in rows
    {
      var _, held := ReplayLog();
      found := set k | k in held && IsOrphaned(held[k]);
      OneAtATime(found);
      var left := found;
      while left != {}
        invariant Valid() && state.stage.Free? && old(history) <= history && left <= found
        invariant state.calls == old(state.calls) && state.started == old(state.started) && clock == old(clock)
        invariant forall k :: k in left ==> Pending(Seen(), k)
        invariant forall k :: Pending(Seen(), k) ==> k in found
        invariant forall k :: k in found - left ==> k in Unaccounted(Seen())
        invariant left == found ==> rows == old(rows) && torn == old(torn)
        invariant Unreadable in old(rows) ==> Unreadable in rows
        invariant !old(torn) ==> !torn && forall k :: k in found - left ==> Seen().held[k].state == ORPHANED
      {
        var k :| k in left;
        EscalateOne(k);
        left := left - {k};
      }
    }

    lemma OneAtATime(found: set<Key>)
      requires Valid() && forall k :: k in found ==> Pending(Seen(), k)
      ensures forall j, k :: j in found && k in found ==> j == k
    {
      Sound();
    }

    // What the job costs, if both caps leave room for it.
    method Afford(quote: Number) returns (r: Result<real, Refusal>)
      modifies this`damaged
      ensures r == Affordable(caps, State(Log(rows, torn), clock, Free, [], {}), quote)
    {
      var cost := CheckedUsd(quote);
      if cost.Refused? {
        return cost;
      }
      if cost.value > caps.perJob {
        return Refused(CostCap);
      }
      var spend := SpendTodayUsd();
      if spend.Refused? {
        return Refused(BreakerOpen);
      }
      return if spend.value + cost.value > caps.perDay then Refused(CostCap) else cost;
    }

    // The checks between the breaker and the reservation, on the log as it is.
    // Passing them is what clears the submission.
    method Price(key: Key, ticket: Ticket, command: Command, seconds: real, quote: Number)
      returns (r: Result<real, Refusal>)
      requires Valid() && state.stage.Free? && Breaker(rows).None? && key !in Seen().held && seconds > 0.0
      modifies this`damaged, this`history, this`state
      ensures Valid() && old(history) <= history
      ensures r == Affordable(caps, old(state), quote)
      ensures r.Ok? ==> state == old(state).(stage := Cleared(key, ticket, command, seconds, r.value, clock))
      ensures r.Refused? ==> state == old(state)
    {
      r := Afford(quote);
      if r.Ok? {
        ChecksClear(caps, state, key, ticket, command, seconds, r.value);
        Note(Admit(key, ticket, command, seconds, r.value));
      }
    }

    ghost predicate BoundTo(key: Key, handle: Handle)
      reads this
    {
      var v := Seen();
      && key in v.held && v.held[key].state == BOUND && v.held[key].handle == Some(handle)
      && handle in v.jobs && v.jobs[handle] == JobOf(v.held[key])
    }

    // A key is never lost from the log, and one that a torn line swallowed shows
    // as damage.
    ghost predicate StillHeld(before: View, key: Key)
      reads this
    {
      if key in before.held then key in Seen().held && SameIntent(before.held[key], Seen().held[key])
      else key !in Seen().held && Unreadable in rows
    }

    // Write the reservation. Durable before anything bills, unless another writer
    // died in the middle of a row after this one read the log.
    method ReserveRow(key: Key, ticket: Ticket, command: Command, seconds: real, cost: real) returns (at: real)
      requires Valid() && state.stage.Cleared?
      requires state.stage == Cleared(key, ticket, command, seconds, cost, state.stage.spendAt)
      modifies this
      ensures Valid() && old(history) <= history
      ensures state.stage == Holding(key) && state.calls == old(state.calls) && state.started == old(state.started)
      ensures old(state).stage.spendAt <= at <= clock
      ensures InHand(rows, key)
      ensures key in Seen().held ==> Intended(Seen().held[key], ticket, command, at, seconds, cost)
    {
      OthersOutside();
      Fits();
      at := clock;
      Reserves(at, ticket, command, seconds, cost);
      Append(Reserved(key, Finite(at), ticket, Finite(at + seconds), Finite(cost), command), Reserve);
    }

    // What the reservation of a cleared submission leaves in the log.
    lemma Reserves(at: real, ticket: Ticket, command: Command, seconds: real, cost: real)
      requires StageFits(caps, state) && TornIsDamage(state.log) && state.stage.Cleared? && at == state.clock
      requires state.stage == Cleared(state.stage.key, ticket, command, seconds, cost, state.stage.spendAt)
      ensures state.stage.spendAt <= at
      ensures var rows', key := Do(state, Reserve).log.rows, state.stage.key;
              && InHand(rows', key)
              && (key in Replay(rows').held ==> Intended(Replay(rows').held[key], ticket, command, at, seconds, cost))
              && (key in Replay(rows').held <==> !state.log.torn)
    {
      RowsAfter(state, Reserve);
    }

    // The substrate answered: bind its handle to the key.
    method BindRow(key: Key, handle: Handle)
      requires Valid() && state.stage == Answered(key, handle)
      modifies this
      ensures Valid() && old(history) <= history && state.stage.Free?
      ensures state.calls == old(state.calls) && state.started == old(state.started)
      ensures StillHeld(old(Seen()), key)
      ensures Unreadable !in rows ==> BoundTo(key, handle)
    {
      Fits();
      OthersOutside();
      Fits();
      RowsAfter(state, Bind);
      Append(Bound(key, handle), Bind);
    }

    // The substrate stated it started nothing: give the money back.
    method ReleaseRow(key: Key)
      requires Valid() && state.stage == Declining(key)
      modifies this
      ensures Valid() && old(history) <= history && state.stage.Free?
      ensures state.calls == old(state.calls) && state.started == old(state.started)
      ensures StillHeld(old(Seen()), key)
      ensures Unreadable !in rows ==> key in Seen().held && Seen().held[key].state == RELEASED
    {
      Fits();
      OthersOutside();
      Fits();
      RowsAfter(state, Release);
      Append(Released(key), Release);
    }

    lemma NeverStarted(key: Key)
      requires Valid() && state.stage == Holding(key)
      ensures key !in state.started
    {
      Sound();
    }

    // The substrate answers with a handle of its own.
    method AcceptHandle(key: Key, handle: Handle)
      requires Valid() && state.stage == Calling(key) && handle !in Seen().jobs
      modifies this
      ensures Valid() && old(history) <= history && state.stage.Free?
      ensures state.calls == old(state.calls) && key in state.started
      ensures StillHeld(old(Seen()), key)
      ensures Unreadable !in rows ==> BoundTo(key, handle)
    {
      Note(Start);
      Note(Answer(handle));
      BindRow(key, handle);
    }

    // The call itself. Other processes go on until it comes back.
    method PlaceCall(key: Key, sub: Substrate) returns (reply: Reply)
      requires Valid() && state.stage == Holding(key) && OwnsItsHandles(sub)
      modifies this
      ensures Valid() && old(history) <= history && state.stage == Calling(key)
      ensures state.calls == old(state.calls) + [key] && key !in state.started
      ensures StillHeld(old(Seen()), key) && InHand(rows, key)
      ensures reply.Started? ==> reply.handle !in Seen().jobs
    {
      Fits();
      NeverStarted(key);
      Note(Call);
      OthersOutside();
      reply := sub.reply(HandlesInUse());
    }

    method TakeRefusal(key: Key)
      requires Valid() && state.stage == Calling(key) && key !in state.started
      modifies this
      ensures Valid() && old(history) <= history && state.stage.Free?
      ensures state.calls == old(state.calls) && state.started == old(state.started)
      ensures StillHeld(old(Seen()), key)
      ensures Unreadable !in rows ==> key in Seen().held && Seen().held[key].state == RELEASED
    {
      Note(Decline);
      ReleaseRow(key);
    }

    ghost method TakeFailure(key: Key, began: bool)
      requires Valid() && state.stage == Calling(key)
      modifies this`history, this`state
      ensures Valid() && old(history) <= history && state.stage.Free?
      ensures state.calls == old(state.calls)
    {
      if began {
        Note(Start);
      }
      Note(Fail);
    }

    lemma StillHeldBy(before: View, between: View, key: Key)
      requires if key in before.held then key in between.held && SameIntent(before.held[key], between.held[key]) else key !in between.held
      requires StillHeld(between, key)
      ensures StillHeld(before, key)
    {
    }

    // Call the substrate and record its answer: the handle bound to the key, or
    // the key released. On any other exception nothing is recorded.
    method CallAndBind(key: Key, sub: Substrate) returns (r: Result<Handle, Refusal>)
      requires Valid() && state.stage == Holding(key) && OwnsItsHandles(sub)
      modifies this
      ensures Valid() && old(history) <= history && state.stage.Free?
      ensures state.calls == old(state.calls) + [key]
      ensures r.Refused? ==> r.why in {Declined, OutcomeUnknown}
      ensures StillHeld(old(Seen()), key)
      ensures r.Ok? ==> key in state.started && (Unreadable !in rows ==> BoundTo(key, r.value))
      ensures r == Refused(Declined) ==>
                key !in state.started && (Unreadable !in rows ==> key in Seen().held && Seen().held[key].state == RELEASED)
      ensures r == Refused(OutcomeUnknown) ==> InHand(rows, key)
    {
      ghost var before := Seen();
      var reply := PlaceCall(key, sub);
      ghost var between := Seen();
      match reply {
        case Started(handle) =>
          AcceptHandle(key, handle);
          r := Ok(handle);
        case Declines =>
          TakeRefusal(key);
          r := Refused(Declined);
        case Raises(began) =>
          TakeFailure(key, began);
          r := Refused(OutcomeUnknown);
      }
      StillHeldBy(before, between, key);
    }

    // A key used before: its own record if it is cleanly bound, else a refusal.
    method IdempotentResult(key: Key) returns (r: Result<(Handle, Job), Refusal>)
      requires key in Seen().held
      modifies this`damaged
      ensures var res := Seen().held[key];
              r == if res.state == BOUND && res.handle.Some? && res.handle.value in Seen().jobs
                   then Ok((res.handle.value, Seen().jobs[res.handle.value])) else Refused(Conflict)
    {
      var jobs, held := ReplayLog();
      var existing := held[key];
      if existing.state == BOUND && existing.handle.Some? && existing.handle.value in jobs {
        return Ok((existing.handle.value, jobs[existing.handle.value]));
      }
      return Refused(Conflict);
    }

    // The record handed back for a new submission.
    ghost predicate Describes(job: Job, ticket: Ticket, seconds: real, cost: Number)
    {
      && job.ticket == ticket && job.cost == cost && job.state == SUBMITTED
      && job.submittedAt.Finite? && job.deadlineAt == Finite(job.submittedAt.value + seconds)
    }

    // What a fresh process replays for a handle agrees with what submit returned.
    ghost predicate SameRecord(a: Job, b: Job)
    {
      a.ticket == b.ticket && a.submittedAt == b.submittedAt && a.deadlineAt == b.deadlineAt && a.cost == b.cost && a.state == b.state
    }

    // The log reads back the job that was returned, for the command asked for.
    ghost predicate ReadsBack(key: Key, answer: (Handle, Job), command: Command)
      reads this
    {
      && BoundTo(key, answer.0) && SameRecord(answer.1, Seen().jobs[answer.0])
      && Seen().jobs[answer.0].requested == if command == [] then None else Some(command)
    }

    // Still waiting for an account, at this price, or swallowed by a torn line.
    ghost predicate LeftPending(key: Key, cost: Number)
      reads this
    {
      (Pending(Seen(), key) && Seen().held[key].cost == cost) || Unrecorded(rows, key)
    }

    // Everything after the admission checks, for a cleared submission.
    method Launch(key: Key, ticket: Ticket, command: Command, seconds: real, cost: real, sub: Substrate)
      returns (r: Result<(Handle, Job), Refusal>)
      requires Valid() && state.stage.Cleared? && OwnsItsHandles(sub)
      requires state.stage == Cleared(key, ticket, command, seconds, cost, state.stage.spendAt)
      modifies this
      ensures Valid() && old(history) <= history && state.stage.Free?
      ensures state.calls == old(state.calls) + [key] && (key in Seen().held || Unreadable in rows)
      ensures r.Refused? ==> r.why in {Declined, OutcomeUnknown}
      ensures r.Ok? ==> key in state.started && Describes(r.value.1, ticket, seconds, Finite(cost))
      ensures r.Ok? && Unreadable !in rows ==> ReadsBack(key, r.value, command)
      ensures r == Refused(Declined) ==>
                key !in state.started && (Unreadable !in rows ==> key in Seen().held && Seen().held[key].state == RELEASED)
      ensures r == Refused(OutcomeUnknown) ==> LeftPending(key, Finite(cost))
    {
      var at := ReserveRow(key, ticket, command, seconds, cost);
      var answer := CallAndBind(key, sub);
      if answer.Refused? {
        return Refused(answer.why);
      }
      return Ok((answer.value, Job(ticket, Finite(at), Finite(at + seconds), Finite(cost), SUBMITTED, None, None, None)));
    }

    // Let the others go on, and remember the moment.
    method Pause() returns (ghost seen: seq<Action>)
      requires Valid()
      modifies this
      ensures Valid() && Undisturbed(old(state), state) && old(history) <= history
      ensures seen == history
    {
      OthersOutside();
      seen := history;
    }

    // Escalate, then read the breaker and the damage count.
    method BreakerGate() returns (open: bool, ghost seen: seq<Action>)
      requires Valid() && state.stage.Free?
      modifies this
      ensures Valid() && state.stage.Free? && old(history) <= history && seen == history
      ensures open <==> Breaker(After(start, seen).log.rows).Some? || Unreadable in After(start, seen).log.rows
      ensures (!open ==> Breaker(rows).None?) && AllEscalated(After(start, seen))
    {
      Fits();
      ghost var whole := !torn;
      assert !whole ==> Unreadable in rows;
      var _ := EscalateOrphans();
      assert state.log.rows == rows && Seen() == Replay(rows);
      assert AllEscalated(state);
      seen := Pause();
      var reason := BreakerReason();
      open := reason.Some? || damaged > 0;
      DamageIsAbsence(rows);
    }

    // The checks after the breaker's: has the key been used, what does it cost.
    method Settle(key: Key, ticket: Ticket, command: Command, seconds: real, quote: Number)
      returns (r: Option<Result<(Handle, Job), Refusal>>, cost: real, ghost look: seq<Action>, ghost price: seq<Action>)
      requires Valid() && state.stage.Free? && seconds > 0.0 && Breaker(rows).None?
      modifies this
      ensures Valid() && old(history) <= look <= price <= history
      ensures state.calls == After(start, price).calls
      ensures var at, was := After(start, look), After(start, price);
              r == if key in Replay(at.log.rows).held then Some(Reused(Replay(at.log.rows), key))
                   else if Affordable(caps, was, quote).Refused? then Some(Refused(Affordable(caps, was, quote).why))
                   else None
      ensures r.None? ==> key !in Replay(After(start, price).log.rows).held && Finite(cost) == quote
      ensures r.None? ==> state.stage.Cleared? && state.stage == Cleared(key, ticket, command, seconds, cost, state.stage.spendAt)
    {
      cost := 0.0;
      look := Pause();
      price := look;
      var _, held := ReplayLog();
      if key in held {
        var reused := IdempotentResult(key);
        r := Some(reused);
      } else {
        price := Pause();
        ghost var at := state;
        var priced := Price(key, ticket, command, seconds, quote);
        assert at == After(start, price);
        if priced.Refused? {
          r := Some(Refused(priced.why));
        } else {
          r, cost := None, priced.value;
        }
      }
    }

    // The checks of `submit`, in order, up to clearing the submission. None means
    // cleared; otherwise the answer to give without touching the substrate.
    method Clear(key: Key, blank: bool, ticket: Ticket, command: Command, seconds: real, quote: Number)
      returns (r: Option<Result<(Handle, Job), Refusal>>, cost: real, ghost looks: Looks)
      requires Valid() && state.stage.Free? && seconds > 0.0
      modifies this
      ensures Valid() && old(history) <= looks.gate <= looks.key <= looks.price <= history
      ensures state.calls == After(start, looks.price).calls
      ensures r == AnswerOf(caps, start, looks, key, blank, quote) && AllEscalated(After(start, looks.gate))
      ensures r.None? ==> key !in Replay(After(start, looks.price).log.rows).held && Finite(cost) == quote
      ensures r.None? ==> state.stage.Cleared? && state.stage == Cleared(key, ticket, command, seconds, cost, state.stage.spendAt)
    {
      var open;
      ghost var gate;
      open, gate := BreakerGate();
      looks := Looks(gate, gate, gate);
      if open {
        r, cost := Some(Refused(BreakerOpen)), 0.0;
      } else if blank {
        r, cost := Some(Refused(BadInput)), 0.0;
      } else {
        ghost var look, price;
        r, cost, look, price := Settle(key, ticket, command, seconds, quote);
        looks := Looks(gate, look, price);
      }
    }

    // A submission whose duration is settled, from the lock to the answer.
    method SubmitFor(seconds: real, key: Key, blank: bool, ticket: Ticket, command: Command, sub: Substrate)
      returns (r: Result<(Handle, Job), Refusal>, ghost looks: Looks)
      requires Valid() && OwnsItsHandles(sub) && seconds > 0.0
      modifies this
      ensures Valid() && old(history) <= looks.gate <= looks.key <= looks.price <= history
      ensures ComesTo(r, looks, key, blank, ticket, command, seconds, sub.quote(ticket, seconds))
    {
      ghost var _ := AwaitLock();
      var answered, cost;
      answered, cost, looks := Clear(key, blank, ticket, command, seconds, sub.quote(ticket, seconds));
      if answered.Some? {
        r := answered.value;
      } else {
        r := Launch(key, ticket, command, seconds, cost, sub);
      }
    }

    // Reserve, submit, bind: nothing is started that was refused, and nothing is
    // started before its reservation is on disk. The deadline is the caller's, or
    // the default where there is none, and prices the job as well as bounding it.
    method Submit(named: Option<Key>, minted: Key, ticket: Ticket, command: Command, deadline: Option<Number>, sub: Substrate)
      returns (r: Result<(Handle, Job), Refusal>, ghost looks: Looks)
      requires Valid() && OwnsItsHandles(sub)
      modifies this
      ensures Valid() && old(history) <= looks.gate <= looks.key <= looks.price <= history
      ensures deadline.Some? && !(deadline.value.Finite? && deadline.value.value > 0.0) ==>
                r == Refused(BadInput) && rows == old(rows) && state == old(state)
      ensures !(deadline.Some? && !(deadline.value.Finite? && deadline.value.value > 0.0)) ==>
                var seconds := if deadline.Some? then deadline.value.value else defaultDeadline;
                var blank := named.Some? && forall i :: 0 <= i < |named.value| ==> named.value[i] in {' ', '\t', '\n', '\r'};
                ComesTo(r, looks, if named.Some? then named.value else minted, blank, ticket, command, seconds, sub.quote(ticket, seconds))
    {
      var seconds := defaultDeadline;
      if deadline.Some? {
        var checked := CheckedSeconds(deadline.value);
        if checked.Refused? {
          return Refused(BadInput), Looks(history, history, history);
        }
        seconds := checked.value;
      }
      r, looks := SubmitFor(seconds, named.GetOr(minted), named.Some? && Blank(named.value), ticket, command, sub);
    }

    // What a submission comes to: the answer of the checks, without a call, or one
    // call and what the substrate said to it.
    ghost predicate ComesTo(r: Result<(Handle, Job), Refusal>, looks: Looks, key: Key, blank: bool, ticket: Ticket, command: Command,
                            seconds: real, quote: Number)
      reads this
    {
      var at := After(start, looks.price);
      var answer := AnswerOf(caps, start, looks, key, blank, quote);
      AllEscalated(After(start, looks.gate)) &&
      if answer.Some? then r == answer.value && state.calls == at.calls
      else
        && state.calls == at.calls + [key] && key !in Replay(at.log.rows).held
        && match r
           case Ok(answer) =>
             && key in state.started && Describes(answer.1, ticket, seconds, quote)
             && (Unreadable !in rows ==> ReadsBack(key, answer, command))
           case Refused(why) =>
             && why in {Declined, OutcomeUnknown}
             && (why == Declined ==>
                   key !in state.started && (Unreadable !in rows ==> key in Seen().held && Seen().held[key].state == RELEASED))
             && (why == OutcomeUnknown ==> LeftPending(key, quote))
    }

    // -- closing jobs --------------------------------------------------------

    // Submitters go on while one collector works through the open jobs.
    method OthersSubmit()
      requires Valid()
      modifies this
      ensures Valid() && old(history) <= history && old(clock) <= clock
      ensures StillOpen(old(Seen()), Seen()) && ClosedStays(old(Seen()), Seen())
      ensures Unreadable in old(rows) ==> Unreadable in rows
    {
      Sound();
      ghost var before := state;
      ghost var more := Others(OtherSubmitters);
      OneCollector(caps, before, more);
    }

    // Record what the substrate says of a finished job; nothing if it raises.
    method ResolveJob(handle: Handle, w: World) returns (r: Option<string>)
      requires Valid()
      modifies this
      ensures Valid() && old(history) <= history && clock == old(clock)
      ensures r == if CanResolve(w, handle) then w.artifact(handle) else None
      ensures r.None? ==> rows == old(rows) && state == old(state)
      ensures r.Some? ==> Recorded(old(Seen()), Resolved(handle, r.value, w.completion(handle).value))
      ensures Unreadable in old(rows) ==> Unreadable in rows
    {
      Fits();
      r := w.artifact(handle);
      if r.Some? {
        var done := w.completion(handle);
        if done.None? {
          return None;
        }
        RowsAfter(state, Resolve(handle, r.value, done.value));
        Append(Resolved(handle, r.value, done.value), Resolve(handle, r.value, done.value));
      }
    }

    // The row is in the log, unless a torn line swallowed it.
    ghost predicate Recorded(before: View, e: Event)
      reads this
    {
      Seen() == ReplayStep(before, e) || (Seen() == before && Unreadable in rows)
    }

    ghost predicate KeptOpen(was: View, h: Handle)
      reads this
    {
      h in was.jobs && h in Outstanding(Seen()) && Seen().jobs[h] == was.jobs[h]
    }

    ghost predicate ClosedBy(was: View, h: Handle, w: World)
      reads this
    {
      && h in was.jobs && CanResolve(w, h)
      && (Unreadable !in rows ==>
            h in Seen().jobs && Seen().jobs[h] ==
            was.jobs[h].(state := RESOLVED, artifact := w.artifact(h), done := w.completion(h).value))
    }

    // How far a collection has got: `worked` jobs dealt with, `left` untouched.
    ghost predicate Batch(was: View, worked: set<Handle>, left: set<Handle>, w: World)
      reads this
    {
      && (forall h :: h in left ==> KeptOpen(was, h))
      && (forall h :: h in worked ==> if Ready(w, h) then ClosedBy(was, h, w) else KeptOpen(was, h))
    }

    // One job of a collection, closed on its own.
    method CollectOne(h: Handle, ticket: Ticket, w: World, ghost was: View, ghost worked: set<Handle>, ghost left: set<Handle>)
      returns (r: Option<Finished>, failed: bool)
      requires Valid() && Batch(was, worked, left, w) && h in left && h !in worked
      modifies this
      ensures Valid() && old(history) <= history && old(clock) <= clock
      ensures Unreadable in old(rows) ==> Unreadable in rows
      ensures failed <==> Fails(w, h)
      ensures r.Some? <==> Ready(w, h)
      ensures r.Some? ==> r.value.handle == h && r.value.ticket == ticket && w.artifact(h) == Some(r.value.artifact)
      ensures Batch(was, worked + {h}, left - {h}, w)
    {
      OthersSubmit();
      r, failed := None, false;
      var poll := w.poll(h);
      if poll == Some(RESOLVED) {
        var artifact := ResolveJob(h, w);
        if artifact.Some? {
          r := Some(Finished(h, ticket, artifact.value));
        } else {
          failed := true;
        }
      } else {
        failed := poll.None?;
      }
    }

    // Close one more job and enter it in the results, or in the failures.
    method CollectNext(h: Handle, ticket: Ticket, w: World, before: seq<Finished>, count: nat, ghost was: View,
                       ghost worked: set<Handle>, ghost left: set<Handle>)
      returns (out: seq<Finished>, failures: nat)
      requires Valid() && Batch(was, worked, left, w) && h in left && h !in worked && h in was.jobs && ticket == was.jobs[h].ticket
      requires HandsBack(was, before, ReadyAmong(worked, w), w) && (count > 0 <==> FailedAmong(worked, w) != {})
      modifies this
      ensures Valid() && old(history) <= history && old(clock) <= clock
      ensures Unreadable in old(rows) ==> Unreadable in rows
      ensures Batch(was, worked + {h}, left - {h}, w)
      ensures HandsBack(was, out, ReadyAmong(worked + {h}, w), w) && (failures > 0 <==> FailedAmong(worked + {h}, w) != {})
    {
      var one, failed := CollectOne(h, ticket, w, was, worked, left);
      out, failures := HandBackOne(was, before, count, h, one, failed, worked, w);
    }

    // Close every open job the substrate reports done and hand each back with its
    // ticket. One job's failure does not lose another's result.
    method CollectFinished(w: World) returns (r: Result<seq<Finished>, Refusal>)
      requires Valid()
      modifies this
      ensures Valid() && old(history) <= history && old(clock) <= clock
      ensures Unreadable in old(rows) ==> Unreadable in rows
      ensures r.Refused? <==> ReadyAmong(Outstanding(old(Seen())), w) == {} && FailedAmong(Outstanding(old(Seen())), w) != {}
      ensures r.Refused? ==> r.why == CannotCollect
      ensures r.Ok? ==> HandsBack(old(Seen()), r.value, ReadyAmong(Outstanding(old(Seen())), w), w)
      ensures Batch(old(Seen()), Outstanding(old(Seen())), {}, w)
    {
      var jobs, _ := ReplayLog();
      var out, failures := CollectAll(jobs, w);
      return if failures > 0 && out == [] then Refused(CannotCollect) else Ok(out);
    }

    // Work through the open jobs, whatever the submitters do meanwhile.
    method CollectAll(jobs: map<Handle, Job>, w: World) returns (out: seq<Finished>, failures: nat)
      requires Valid() && jobs == Seen().jobs
      modifies this
      ensures Valid() && old(history) <= history && old(clock) <= clock
      ensures Unreadable in old(rows) ==> Unreadable in rows
      ensures out == [] <==> ReadyAmong(Outstanding(old(Seen())), w) == {}
      ensures failures > 0 <==> FailedAmong(Outstanding(old(Seen())), w) != {}
      ensures HandsBack(old(Seen()), out, ReadyAmong(Outstanding(old(Seen())), w), w)
      ensures Batch(old(Seen()), Outstanding(old(Seen())), {}, w)
    {
      ghost var was := Seen();
      var open := set h | h in jobs && jobs[h].state == SUBMITTED;
      out, failures := [], 0;
      var left := open;
      ghost var worked: set<Handle> := {};
      while left != {}
        invariant Valid() && old(history) <= history && old(clock) <= clock
        invariant Unreadable in old(rows) ==> Unreadable in rows
        invariant left + worked == open && left !! worked && Batch(was, worked, left, w)
        invariant HandsBack(was, out, ReadyAmong(worked, w), w)
        invariant failures > 0 <==> FailedAmong(worked, w) != {}
      {
        var h :| h in left;
        out, failures := CollectNext(h, jobs[h].ticket, w, out, failures, was, worked, left);
        OneMoved(left, worked, h);
        left, worked := left - {h}, worked + {h};
      }
      NothingHandedBack(was, out, worked, w);
    }

    // Keep the results and count the failures.
    static method HandBackOne(
      ghost was: View, before: seq<Finished>, count: nat, ghost h: Handle, one: Option<Finished>, failed: bool,
      ghost worked: set<Handle>, ghost w: World) returns (out: seq<Finished>, failures: nat)
      requires HandsBack(was, before, ReadyAmong(worked, w), w) && h !in worked && h in was.jobs
      requires one.Some? <==> Ready(w, h)
      requires one.Some? ==> one.value.handle == h && one.value.ticket == was.jobs[h].ticket && w.artifact(h) == Some(one.value.artifact)
      requires count > 0 <==> FailedAmong(worked, w) != {}
      requires failed <==> Fails(w, h)
      ensures HandsBack(was, out, ReadyAmong(worked + {h}, w), w)
      ensures failures > 0 <==> FailedAmong(worked + {h}, w) != {}
    {
      failures := if failed then count + 1 else count;
      assert FailedAmong(worked + {h}, w) == FailedAmong(worked, w) + (if failed then {h} else {});
      assert ReadyAmong(worked + {h}, w) == ReadyAmong(worked, w) + (if one.Some? then {h} else {});
      if one.None? {
        return before, failures;
      }
      out := before + [one.value];
      forall g | g in ReadyAmong(worked, w) ensures exists i :: 0 <= i < |out| && out[i].handle == g {
        var i :| 0 <= i < |before| && before[i].handle == g;
        assert out[i].handle == g;
      }
      assert out[|before|].handle == h;
    }

    ghost predicate LostBy(was: View, h: Handle)
      reads this
    {
      h in was.jobs &&
      (Unreadable !in rows ==>
         h in Seen().jobs && Seen().jobs[h] == was.jobs[h].(state := LOST, artifact := None, done := None))
    }

    ghost predicate Swept(was: View, now: real, worked: set<Handle>, left: set<Handle>, w: World)
      reads this
    {
      && (forall h :: h in left ==> KeptOpen(was, h))
      && (forall h :: h in worked ==>
            && h in was.jobs && !SweepFails(was.jobs[h], now, h, w)
            && if !Overdue(was.jobs[h], now) then KeptOpen(was, h)
               else if w.poll(h) == Some(RESOLVED) then ClosedBy(was, h, w)
               else LostBy(was, h))
    }

    // One job of a sweep; false if looking at it raised.
    method SweepOne(h: Handle, job: Job, now: real, w: World, ghost was: View, ghost worked: set<Handle>, ghost left: set<Handle>)
      returns (looked: bool, lost: bool)
      requires Valid() && Swept(was, now, worked, left, w) && h in left && h !in worked && job == was.jobs[h] && now <= clock
      modifies this
      ensures Valid() && old(history) <= history && old(clock) <= clock
      ensures Unreadable in old(rows) ==> Unreadable in rows
      ensures looked <==> !SweepFails(job, now, h, w)
      ensures lost <==> looked && Overdue(job, now) && w.poll(h) != Some(RESOLVED)
      ensures looked ==> Swept(was, now, worked + {h}, left - {h}, w)
      ensures !looked ==> Swept(was, now, worked, left, w)
    {
      OthersMeanwhile(was, now, worked, left, w);
      if !job.deadlineAt.Finite? {
        return false, false;
      }
      if now < job.deadlineAt.value {
        return true, false;
      }
      looked, lost := SweepOverdue(h, job, now, w, was, worked, left);
    }

    method OthersMeanwhile(ghost was: View, ghost now: real, ghost worked: set<Handle>, ghost left: set<Handle>, ghost w: World)
      requires Valid() && Swept(was, now, worked, left, w)
      modifies this
      ensures Valid() && old(history) <= history && old(clock) <= clock
      ensures Unreadable in old(rows) ==> Unreadable in rows
      ensures Swept(was, now, worked, left, w)
    {
      OthersSubmit();
    }

    method SweepOverdue(h: Handle, job: Job, now: real, w: World, ghost was: View, ghost worked: set<Handle>, ghost left: set<Handle>)
      returns (looked: bool, lost: bool)
      requires Valid() && Swept(was, now, worked, left, w) && h in left && h !in worked && job == was.jobs[h] && now <= clock
      requires Overdue(job, now)
      modifies this
      ensures Valid() && old(history) <= history && old(clock) <= clock
      ensures Unreadable in old(rows) ==> Unreadable in rows
      ensures looked <==> !Fails(w, h)
      ensures lost <==> looked && w.poll(h) != Some(RESOLVED)
      ensures looked ==> Swept(was, now, worked + {h}, left - {h}, w)
      ensures !looked ==> Swept(was, now, worked, left, w)
    {
      var poll := w.poll(h);
      if poll.None? {
        return false, false;
      }
      if poll == Some(RESOLVED) {
        var artifact := ResolveJob(h, w);
        return artifact.Some?, false;
      }
      MarkLost(h);
      return true, true;
    }

    method LockForCollector()
      requires Valid()
      modifies this
      ensures Valid() && state.stage.Free? && old(history) <= history && old(clock) <= clock
      ensures StillOpen(old(Seen()), Seen()) && ClosedStays(old(Seen()), Seen())
      ensures Unreadable in old(rows) ==> Unreadable in rows
    {
      Sound();
      ghost var before := state;
      ghost var more := AwaitLock();
      OneCollector(caps, before, more);
    }

    // Append the loss under the lock, so no submission is cleared against a
    // breaker that is opening.
    method MarkLost(h: Handle)
      requires Valid() && h in Outstanding(Seen()) && Overdue(Seen().jobs[h], clock)
      modifies this
      ensures Valid() && old(history) <= history && old(clock) <= clock
      ensures Unreadable in old(rows) ==> Unreadable in rows
      ensures Unreadable !in rows ==>
                h in Seen().jobs && Seen().jobs[h] == old(Seen()).jobs[h].(state := LOST, artifact := None, done := None)
      ensures forall g :: g != h && g in Outstanding(old(Seen())) ==> KeptOpen(old(Seen()), g)
      ensures ClosedStays(old(Seen()), Seen())
    {
      LockForCollector();
      Fits();
      LoseRow(state, h);
      Append(Lost(h), Lose(h));
    }

    // The only thing that notices a lost job. A job found finished here is closed
    // without a word to whoever waits on it; a raise loses the list of losses.
    method Sweep(w: World) returns (r: Result<map<Handle, Ticket>, Refusal>, ghost worked: set<Handle>)
      requires Valid()
      modifies this
      ensures Valid() && old(history) <= history && old(clock) <= clock
      ensures Unreadable in old(rows) ==> Unreadable in rows
      ensures r.Ok? <==> RaisingAmong(old(Seen()), old(clock), Outstanding(old(Seen())), w) == {}
      ensures r.Refused? ==> r.why == CannotCollect
      ensures r.Ok? ==> worked == Outstanding(old(Seen())) && r.value == LossesAmong(old(Seen()), old(clock), worked, w)
      ensures worked <= Outstanding(old(Seen()))
      ensures Swept(old(Seen()), old(clock), worked, Outstanding(old(Seen())) - worked, w)
    {
      var now := clock;
      var jobs, _ := ReplayLog();
      ghost var was := Seen();
      var open := set h | h in jobs && jobs[h].state == SUBMITTED;
      var lost: map<Handle, Ticket> := map[];
      var left := open;
      worked := {};
      while left != {}
        invariant Valid() && old(history) <= history && old(clock) <= clock
        invariant Unreadable in old(rows) ==> Unreadable in rows
        invariant left + worked == open && left !! worked && Swept(was, now, worked, left, w)
        invariant lost == LossesAmong(was, now, worked, w)
      {
        var h :| h in left;
        var looked, isLost := SweepOne(h, jobs[h], now, w, was, worked, left);
        assert open - worked == left && h in Outstanding(was);
        LossesGrow(was, now, worked, h, w);
        if !looked {
          assert h in RaisingAmong(was, now, open, w);
          return Refused(CannotCollect), worked;
        }
        if isLost {
          lost := lost[h := jobs[h].ticket];
        }
        OneMoved(left, worked, h);
        left, worked := left - {h}, worked + {h};
      }
      assert worked == open && open - worked == {};
      return Ok(lost), worked;
    }

    // -- people --------------------------------------------------------------

    method TripBreaker()
      requires Valid()
      modifies this
      ensures Valid() && old(history) <= history
      ensures Unreadable !in rows ==> Breaker(rows).Some?
    {
      ghost var _ := AwaitLock();
      Fits();
      RowsAfter(state, Trip);
      Append(Tripped, Trip);
    }

    // A reset clears incidents. What is still unaccounted for stays so.
    method ResetBreakerBy(operator: string)
      requires Valid()
      modifies this
      ensures Valid() && old(history) <= history && Seen() == old(Seen())
      ensures Unreadable !in rows ==>
                Breaker(rows) == if Unaccounted(Seen()) == {} then None else Some(StillUnaccounted(Unaccounted(Seen())))
    {
      Fits();
      ResetCloses(rows);
      Append(Reset, ResetBreaker);
    }

    method OthersHistory(key: Key)
      requires Valid() && key in Seen().held
      modifies this
      ensures Valid() && old(history) <= history && key in Seen().held
      ensures Becomes(old(Seen()).held[key].state, Seen().held[key].state)
    {
      Sound();
      ghost var before := state;
      ghost var more := Others(OtherSubmitters);
      ReservationHistory(caps, before, more, key);
    }

    // A named human closes an orphan. The money stays charged.
    method AbandonReservation(key: Key, operator: string, reason: string) returns (r: Result<bool, Refusal>)
      requires Valid()
      modifies this
      ensures Valid() && old(history) <= history
      ensures r == if key in old(Seen()).held && old(Seen()).held[key].state == ORPHANED then Ok(true) else Refused(Conflict)
      ensures r.Refused? ==> rows == old(rows)
      ensures r.Ok? ==> key in Seen().held && IsCharged(Seen().held[key])
      ensures r.Ok? && Unreadable !in rows ==> Seen().held[key].state == ABANDONED
    {
      var _, held := ReplayLog();
      if key !in held || held[key].state != ORPHANED {
        return Refused(Conflict);
      }
      OthersHistory(key);
      Fits();
      AbandonKeeps(state, key);
      Append(Abandoned(key), Abandon(key));
      return Ok(true);
    }

    // Startup: escalate the crash window, and list what finished unnoticed.
    method Reconcile(w: World) returns (finished: Option<set<Handle>>, orphaned: set<Key>)
      requires Valid()
      modifies this
      ensures Valid() && old(history) <= history
      ensures forall k :: Pending(Seen(), k) ==> k in orphaned
      ensures forall k :: k in orphaned ==> k in Unaccounted(Seen())
      ensures finished.Some? <==> forall h :: h in Outstanding(Seen()) ==> w.poll(h).Some?
      ensures finished.Some? ==> finished.value == set h | h in Outstanding(Seen()) && w.poll(h) == Some(RESOLVED)
    {
      ghost var _ := AwaitLock();
      orphaned := EscalateOrphans();
      var jobs, _ := ReplayLog();
      var open := set h | h in jobs && jobs[h].state == SUBMITTED;
      if exists h :: h in open && w.poll(h).None? {
        return None, orphaned;
      }
      return Some(set h | h in open && w.poll(h) == Some(RESOLVED)), orphaned;
    }
  }

  lemma NothingHandedBack(was: View, out: seq<Finished>, handles: set<Handle>, w: World)
    requires HandsBack(was, out, ReadyAmong(handles, w), w)
    ensures out == [] <==> ReadyAmong(handles, w) == {}
  {
    if out != [] {
      assert out[0].handle in ReadyAmong(handles, w);
    }
  }
}
