// One poll cycle of the runner: collect finished jobs, ground lost ones, then
// dispatch what the concurrency and review budgets allow.
module RunnerTick {
  import opened Prelude
  import opened Board
  import opened RegistryLog
  import opened RegistryProtocol
  import opened JobRegistryClass
  import opened RegistryInterference

  datatype Label = AgentReady | Lane | NeedsHumanLabel | OtherLabel(name: string)

  datatype BoardTicket = BoardTicket(id: TicketId, labels: set<Label>, state: TicketState)

  // The gates a verdict was judged by, unless the verifier raised.
  datatype Verdict = VerifierRaises | Judged(gates: set<string>)

  // How an agent's session ends, and what a finished job's artifact turns into.
  datatype Session = WorkspaceRefused | AgentFails | Submits(handle: Handle) | Returns(verdict: Verdict)

  datatype Harvest = Garbled | Evidence(verdict: Verdict)

  // What becomes of a ticket, whichever way it was worked on.
  datatype Outcome = ForReview | Broken | TurnedAway | Detached(handle: Handle)

  datatype Skip =
    | NotAgentReady | WrongLane | NeedsAHuman | AlreadyBusy | NoActor | NotAHuman
    | GroundedThisTick | BreakerIsOpen | NoConcurrency | ReviewQueueFull

  // A tracker keeps a ticket's state either as one of its labels or apart from them.
  datatype Tracker = StateAsLabel | StateAsState

  ghost function AfterWrite(tracker: Tracker, t: BoardTicket, s: TicketState): BoardTicket
  {
    match tracker
    case StateAsLabel =>
      t.(state := s, labels := t.labels - {NeedsHumanLabel} + (if s == NeedsHuman then {NeedsHumanLabel} else {}))
    case StateAsState => t.(state := s)
  }

  datatype TickResult = TickResult(
    dispatched: set<TicketId>, skipped: map<TicketId, Skip>, failed: set<TicketId>, refused: set<TicketId>,
    submitted: map<TicketId, Handle>, collected: set<TicketId>, lost: set<TicketId>, registryError: bool)

  // What the world answers during one tick: the jobs when they are collected and
  // again when they are swept, who applied a label, what agents and artifacts do.
  datatype Answers = Answers(
    atCollect: World, atSweep: World, actor: TicketId -> Option<string>,
    session: TicketId -> Session, harvest: Handle -> Harvest)

  ghost predicate Distinct(tickets: seq<BoardTicket>)
  {
    forall i, j :: 0 <= i < j < |tickets| ==> tickets[i].id != tickets[j].id
  }

  // The tickets a tick reads are the board's, each once.
  ghost predicate Labelled(labels: TicketId -> set<Label>, tickets: seq<BoardTicket>)
  {
    forall i :: 0 <= i < |tickets| ==> tickets[i].labels == labels(tickets[i].id)
  }

  ghost predicate Snapshot(b: Columns, tickets: seq<BoardTicket>)
  {
    && Distinct(tickets)
    && (forall i :: 0 <= i < |tickets| ==> tickets[i].id in b && b[tickets[i].id] == tickets[i].state)
    && (forall t :: t in b ==> exists i :: 0 <= i < |tickets| && tickets[i].id == t)
  }

  ghost function FirstIds(tickets: seq<BoardTicket>, n: nat): set<TicketId>
    requires n <= |tickets|
  {
    set i | 0 <= i < n :: tickets[i].id
  }

  ghost function InColumns(tickets: seq<BoardTicket>, states: set<TicketState>): set<TicketId>
  {
    set i | 0 <= i < |tickets| && tickets[i].state in states :: tickets[i].id
  }

  lemma OneMoreInColumns(tickets: seq<BoardTicket>, t: BoardTicket, states: set<TicketState>)
    requires forall i :: 0 <= i < |tickets| ==> tickets[i].id != t.id
    ensures |InColumns(tickets + [t], states)| == |InColumns(tickets, states)| + (if t.state in states then 1 else 0)
  {
    var before, after := InColumns(tickets, states), InColumns(tickets + [t], states);
    assert t.id !in before;
    assert forall i :: 0 <= i < |tickets| ==> (tickets + [t])[i] == tickets[i];
    assert (tickets + [t])[|tickets|] == t;
    assert after == if t.state in states then before + {t.id} else before;
  }

  lemma SnapshotCounts(b: Columns, tickets: seq<BoardTicket>)
    requires Snapshot(b, tickets)
    ensures InColumns(tickets, {InProgress, RunningUnattended}) == InFlight(b)
    ensures InColumns(tickets, {InReview, NeedsHuman}) == Waiting(b)
  {
    forall t | t in InFlight(b) ensures t in InColumns(tickets, {InProgress, RunningUnattended}) {
      var i :| 0 <= i < |tickets| && tickets[i].id == t;
    }
    forall t | t in Waiting(b) ensures t in InColumns(tickets, {InReview, NeedsHuman}) {
      var i :| 0 <= i < |tickets| && tickets[i].id == t;
    }
  }

  // -- parked tickets --------------------------------------------------------

  ghost predicate Held(v: View, among: set<Handle>, t: TicketId)
  {
    exists h :: h in among && h in Outstanding(v) && v.jobs[h].ticket == t
  }

  // Nobody waits on a job that nothing will report.
  ghost predicate Parked(b: Columns, v: View, among: set<Handle>)
  {
    forall t :: t in b && b[t] == RunningUnattended ==> Held(v, among, t)
  }

  // The tickets whose job nobody has closed yet.
  ghost function OpenTickets(v: View): set<TicketId>
  {
    set h | h in v.jobs && h in Outstanding(v) :: v.jobs[h].ticket
  }

  lemma OnlyOpenOnesMove(v: View, now: real, w: World)
    ensures FinishedTickets(v, w) <= OpenTickets(v)
    ensures LossesAmong(v, now, Outstanding(v), w).Values <= OpenTickets(v)
  {
    var lost := LossesAmong(v, now, Outstanding(v), w);
    forall t | t in lost.Values ensures t in OpenTickets(v) {
      var h :| h in lost && lost[h] == t;
      assert h in Outstanding(v);
    }
  }

  ghost function FinishedTickets(v: View, w: World): set<TicketId>
  {
    set h | h in v.jobs && h in ReadyAmong(Outstanding(v), w) :: v.jobs[h].ticket
  }

  lemma CollectingStrandsNobody(jobs: JobRegistry, b: Columns, b': Columns, was: View, w: World)
    requires Parked(b, was, Outstanding(was)) && jobs.Batch(was, Outstanding(was), {}, w)
    requires Handed(b, b', FinishedTickets(was, w))
    ensures Parked(b', jobs.Seen(), Outstanding(was) - ReadyAmong(Outstanding(was), w))
  {
    forall t | t in b' && b'[t] == RunningUnattended
      ensures Held(jobs.Seen(), Outstanding(was) - ReadyAmong(Outstanding(was), w), t)
    {
      var h :| h in Outstanding(was) && was.jobs[h].ticket == t;
      assert h !in ReadyAmong(Outstanding(was), w);
      assert jobs.KeptOpen(was, h);
    }
  }

  lemma SweepingStrandsNobody(jobs: JobRegistry, b: Columns, b': Columns, was: View, now: real, among: set<Handle>, w: World)
    requires Parked(b, was, among) && jobs.Swept(was, now, Outstanding(was), {}, w)
    requires Handed(b, b', LossesAmong(was, now, Outstanding(was), w).Values)
    requires forall h :: h in among ==> w.poll(h) != Some(RESOLVED)
    ensures Parked(b', jobs.Seen(), among)
  {
    forall t | t in b' && b'[t] == RunningUnattended ensures Held(jobs.Seen(), among, t) {
      var h :| h in among && h in Outstanding(was) && was.jobs[h].ticket == t;
      var lost := LossesAmong(was, now, Outstanding(was), w);
      assert forall g :: g in lost ==> lost[g] in lost.Values;
      assert h !in lost;
      assert jobs.KeptOpen(was, h);
    }
  }

  // What a completed sweep does to a ticket's jobs: some job of its own is still
  // open, or a lost one names it, unless every one of them was overdue and
  // reported done. Those are closed without naming the ticket.
  lemma SilentExactlyWhenAllDone(jobs: JobRegistry, was: View, now: real, w: World, t: TicketId)
    requires jobs.Swept(was, now, Outstanding(was), {}, w) && Unreadable !in jobs.rows
    ensures Held(jobs.Seen(), Outstanding(was), t) || t in LossesAmong(was, now, Outstanding(was), w).Values <==>
            exists h :: h in Outstanding(was) && was.jobs[h].ticket == t && !(Overdue(was.jobs[h], now) && w.poll(h) == Some(RESOLVED))
  {
    if h :| h in Outstanding(was) && was.jobs[h].ticket == t && !(Overdue(was.jobs[h], now) && w.poll(h) == Some(RESOLVED)) {
      if Overdue(was.jobs[h], now) {
        assert LossesAmong(was, now, Outstanding(was), w)[h] == t;
      } else {
        assert jobs.KeptOpen(was, h);
      }
    }
    if Held(jobs.Seen(), Outstanding(was), t) {
      var h :| h in Outstanding(was) && h in Outstanding(jobs.Seen()) && jobs.Seen().jobs[h].ticket == t;
      assert was.jobs[h].ticket == t;
    }
  }

  // However far a sweep got before a job made it raise, a ticket keeps an open job
  // exactly when one of its jobs was not reached or was not overdue. Nothing names
  // the other tickets: their losses go with the exception.
  lemma OpenAfterARaiseExactlyWhen(jobs: JobRegistry, was: View, now: real, worked: set<Handle>, w: World, t: TicketId)
    requires worked <= Outstanding(was) && jobs.Swept(was, now, worked, Outstanding(was) - worked, w) && Unreadable !in jobs.rows
    ensures Held(jobs.Seen(), Outstanding(was), t) <==>
            exists h :: h in Outstanding(was) && was.jobs[h].ticket == t && !(h in worked && Overdue(was.jobs[h], now))
  {
    if h :| h in Outstanding(was) && was.jobs[h].ticket == t && !(h in worked && Overdue(was.jobs[h], now)) {
      assert jobs.KeptOpen(was, h);
    }
    if Held(jobs.Seen(), Outstanding(was), t) {
      var h :| h in Outstanding(was) && h in Outstanding(jobs.Seen()) && jobs.Seen().jobs[h].ticket == t;
      assert h in worked || jobs.KeptOpen(was, h);
      assert was.jobs[h].ticket == t;
    }
  }

  ghost predicate PartlySwept(jobs: JobRegistry, was: View, now: real, w: World)
    reads jobs
  {
    exists worked :: worked <= Outstanding(was) && jobs.Swept(was, now, worked, Outstanding(was) - worked, w)
  }

  // -- what a tick does to a board -------------------------------------------

  function OutcomeOfVerdict(v: Verdict, required: set<string>): Outcome
  {
    match v
    case VerifierRaises => Broken
    case Judged(gates) => if required <= gates then ForReview else TurnedAway
  }

  function OutcomeOfSession(s: Session, required: set<string>, canDetach: bool): Outcome
  {
    match s
    case WorkspaceRefused => TurnedAway
    case AgentFails => Broken
    case Submits(handle) => if canDetach then Detached(handle) else TurnedAway
    case Returns(v) => OutcomeOfVerdict(v, required)
  }

  function OutcomeOfHarvest(g: Harvest, required: set<string>): Outcome
    ensures !OutcomeOfHarvest(g, required).Detached?
  {
    if g.Garbled? then Broken else OutcomeOfVerdict(g.verdict, required)
  }

  function StateFor(o: Outcome): TicketState
  {
    match o
    case ForReview => InReview
    case Detached(_) => RunningUnattended
    case _ => NeedsHuman
  }

  // The summary with one ticket's outcome entered in its place.
  function Entered(r: TickResult, t: TicketId, o: Outcome, dispatching: bool): (e: TickResult)
    ensures e.skipped == r.skipped && e.lost == r.lost && e.registryError == r.registryError
  {
    match o
    case ForReview => if dispatching then r.(dispatched := r.dispatched + {t}) else r.(collected := r.collected + {t})
    case Broken => r.(failed := r.failed + {t})
    case TurnedAway => r.(refused := r.refused + {t})
    case Detached(handle) => r.(submitted := r.submitted[t := handle])
  }

  // -- where a ticket belongs --------------------------------------------------

  // A verdict that shows every required gate.
  ghost predicate Passes(v: Verdict, required: set<string>)
  {
    v.Judged? && required <= v.gates
  }

  // In review only with such a verdict, unattended only on a job that somebody
  // will collect, and in front of a person with whatever else came of it.
  ghost predicate SessionLands(s: Session, required: set<string>, canDetach: bool, column: TicketState)
  {
    && (column == InReview <==> s.Returns? && Passes(s.verdict, required))
    && (column == RunningUnattended <==> s.Submits? && canDetach)
    && (column == NeedsHuman <==> !(s.Returns? && Passes(s.verdict, required)) && !(s.Submits? && canDetach))
  }

  ghost predicate HarvestLands(g: Harvest, required: set<string>, column: TicketState)
  {
    column == if g.Evidence? && Passes(g.verdict, required) then InReview else NeedsHuman
  }

  // Nothing usable came of it.
  ghost predicate SessionBreaks(s: Session)
  {
    s.AgentFails? || (s.Returns? && s.verdict.VerifierRaises?)
  }

  // Something came of it that is not accepted.
  ghost predicate SessionIsRefused(s: Session, required: set<string>, canDetach: bool)
  {
    s.WorkspaceRefused? || (s.Submits? && !canDetach) || (s.Returns? && s.verdict.Judged? && !(required <= s.verdict.gates))
  }

  ghost predicate HarvestBreaks(g: Harvest)
  {
    g.Garbled? || g.verdict.VerifierRaises?
  }

  ghost predicate HarvestIsRefused(g: Harvest, required: set<string>)
  {
    g.Evidence? && g.verdict.Judged? && !(required <= g.verdict.gates)
  }

  lemma SessionOutcomes(s: Session, required: set<string>, canDetach: bool)
    ensures var o := OutcomeOfSession(s, required, canDetach);
            && SessionLands(s, required, canDetach, StateFor(o))
            && (o.ForReview? <==> s.Returns? && Passes(s.verdict, required))
            && (o.Detached? <==> s.Submits? && canDetach) && (o.Detached? ==> o.handle == s.handle)
            && (o.Broken? <==> SessionBreaks(s)) && (o.TurnedAway? <==> SessionIsRefused(s, required, canDetach))
  {
  }

  lemma HarvestOutcomes(g: Harvest, required: set<string>)
    ensures var o := OutcomeOfHarvest(g, required);
            && HarvestLands(g, required, StateFor(o))
            && (o.ForReview? <==> g.Evidence? && Passes(g.verdict, required))
            && (o.Broken? <==> HarvestBreaks(g)) && (o.TurnedAway? <==> HarvestIsRefused(g, required))
  {
  }

  // One ticket's session, in the summary.
  ghost predicate Enters(before: TickResult, r: TickResult, t: TicketId, s: Session, required: set<string>, canDetach: bool)
  {
    && r.dispatched == before.dispatched + (if s.Returns? && Passes(s.verdict, required) then {t} else {})
    && r.submitted == (if s.Submits? && canDetach then before.submitted[t := s.handle] else before.submitted)
    && r.failed == before.failed + (if SessionBreaks(s) then {t} else {})
    && r.refused == before.refused + (if SessionIsRefused(s, required, canDetach) then {t} else {})
    && r.collected == before.collected && r.skipped == before.skipped && r.lost == before.lost
    && r.registryError == before.registryError
  }

  lemma EnteredRightly(before: TickResult, t: TicketId, s: Session, required: set<string>, canDetach: bool)
    ensures Enters(before, Entered(before, t, OutcomeOfSession(s, required, canDetach), true), t, s, required, canDetach)
  {
    SessionOutcomes(s, required, canDetach);
  }

  // The column that the last of a ticket's finished jobs puts it in.
  ghost predicate Collects(out: seq<Finished>, harvest: Handle -> Harvest, required: set<string>, t: TicketId, column: TicketState)
  {
    forall i :: 0 <= i < |out| && out[i].ticket == t && (forall j :: i < j < |out| ==> out[j].ticket != t) ==>
      HarvestLands(harvest(out[i].handle), required, column)
  }

  ghost predicate CollectionSummary(out: seq<Finished>, harvest: Handle -> Harvest, required: set<string>, r: TickResult)
  {
    && r.collected ==
         (set i | 0 <= i < |out| && harvest(out[i].handle).Evidence? && Passes(harvest(out[i].handle).verdict, required) :: out[i].ticket)
    && r.failed == (set i | 0 <= i < |out| && HarvestBreaks(harvest(out[i].handle)) :: out[i].ticket)
    && r.refused == (set i | 0 <= i < |out| && HarvestIsRefused(harvest(out[i].handle), required) :: out[i].ticket)
  }

  lemma {:induction false} DeliveredLands(b: Columns, out: seq<Finished>, harvest: Handle -> Harvest, required: set<string>, t: TicketId)
    requires t in TicketsOf(out)
    ensures t in Delivered(b, out, harvest, required) && Collects(out, harvest, required, t, Delivered(b, out, harvest, required)[t])
  {
    var n := |out| - 1;
    HarvestOutcomes(harvest(out[n].handle), required);
    if out[n].ticket != t {
      assert exists i :: 0 <= i < n && out[..n][i].ticket == t;
      DeliveredLands(b, out[..n], harvest, required, t);
      CollectsAsBefore(out, harvest, required, t, Delivered(b, out, harvest, required)[t]);
    }
  }

  lemma CollectsAsBefore(out: seq<Finished>, harvest: Handle -> Harvest, required: set<string>, t: TicketId, column: TicketState)
    requires out != [] && out[|out| - 1].ticket != t && Collects(out[..|out| - 1], harvest, required, t, column)
    ensures Collects(out, harvest, required, t, column)
  {
    var before := out[..|out| - 1];
    forall i | 0 <= i < |out| && out[i].ticket == t && (forall j :: i < j < |out| ==> out[j].ticket != t)
      ensures HarvestLands(harvest(out[i].handle), required, column)
    {
      assert before[i] == out[i] && forall j :: i < j < |before| ==> before[j].ticket != t;
    }
  }

  lemma {:induction false} CollectedSummary(r: TickResult, out: seq<Finished>, harvest: Handle -> Harvest, required: set<string>)
    requires r.collected == {} && r.failed == {} && r.refused == {}
    ensures CollectionSummary(out, harvest, required, Collected(r, out, harvest, required))
  {
    if out != [] {
      var n := |out| - 1;
      CollectedSummary(r, out[..n], harvest, required);
      HarvestOutcomes(harvest(out[n].handle), required);
      OneMoreCollected(out, harvest, required, Collected(r, out[..n], harvest, required), Collected(r, out, harvest, required));
    }
  }

  lemma OneMoreCollected(out: seq<Finished>, harvest: Handle -> Harvest, required: set<string>, before: TickResult, r: TickResult)
    requires out != [] && CollectionSummary(out[..|out| - 1], harvest, required, before)
    requires r == Entered(before, out[|out| - 1].ticket, OutcomeOfHarvest(harvest(out[|out| - 1].handle), required), false)
    ensures CollectionSummary(out, harvest, required, r)
  {
    HarvestOutcomes(harvest(out[|out| - 1].handle), required);
    assert out == out[..|out| - 1] + [out[|out| - 1]];
  }

  ghost function Delivered(b: Columns, out: seq<Finished>, harvest: Handle -> Harvest, required: set<string>): Columns
  {
    if out == [] then b
    else
      var last := out[|out| - 1];
      Delivered(b, out[..|out| - 1], harvest, required)[last.ticket := StateFor(OutcomeOfHarvest(harvest(last.handle), required))]
  }

  ghost function Collected(r: TickResult, out: seq<Finished>, harvest: Handle -> Harvest, required: set<string>): TickResult
  {
    if out == [] then r
    else
      var last := out[|out| - 1];
      Entered(Collected(r, out[..|out| - 1], harvest, required), last.ticket, OutcomeOfHarvest(harvest(last.handle), required), false)
  }

  ghost function TicketsOf(out: seq<Finished>): set<TicketId>
  {
    set i | 0 <= i < |out| :: out[i].ticket
  }

  lemma {:induction false} DeliveredIsHanded(b: Columns, out: seq<Finished>, harvest: Handle -> Harvest, required: set<string>)
    ensures Handed(b, Delivered(b, out, harvest, required), TicketsOf(out))
  {
    if out != [] {
      DeliveredIsHanded(b, out[..|out| - 1], harvest, required);
      assert TicketsOf(out) == TicketsOf(out[..|out| - 1]) + {out[|out| - 1].ticket} by {
        assert forall i :: 0 <= i < |out| - 1 ==> out[..|out| - 1][i] == out[i];
      }
    }
  }

  // Collecting reports only on tickets of finished jobs, and each of them shows
  // up as collected, failed or refused.
  lemma {:induction false} CollectedReports(r: TickResult, out: seq<Finished>, harvest: Handle -> Harvest, required: set<string>)
    ensures var c := Collected(r, out, harvest, required);
            && c.dispatched == r.dispatched && c.submitted == r.submitted && c.skipped == r.skipped && c.lost == r.lost
            && c.registryError == r.registryError
            && c.collected + c.failed + c.refused == r.collected + r.failed + r.refused + TicketsOf(out)
  {
    if out != [] {
      CollectedReports(r, out[..|out| - 1], harvest, required);
      assert TicketsOf(out) == TicketsOf(out[..|out| - 1]) + {out[|out| - 1].ticket} by {
        assert forall i :: 0 <= i < |out| - 1 ==> out[..|out| - 1][i] == out[i];
      }
    }
  }

  lemma TicketsHandedBack(v: View, out: seq<Finished>, w: World)
    requires HandsBack(v, out, ReadyAmong(Outstanding(v), w), w)
    ensures TicketsOf(out) == FinishedTickets(v, w)
  {
    forall h | h in v.jobs && h in ReadyAmong(Outstanding(v), w) ensures v.jobs[h].ticket in TicketsOf(out) {
      var i :| 0 <= i < |out| && out[i].handle == h;
    }
    forall t | t in TicketsOf(out) ensures t in FinishedTickets(v, w) {
      var i :| 0 <= i < |out| && out[i].ticket == t;
      assert out[i].handle in v.jobs;
    }
  }

  lemma NothingFinished(v: View, w: World)
    requires ReadyAmong(Outstanding(v), w) == {}
    ensures FinishedTickets(v, w) == {} == TicketsOf([])
  {
  }

  lemma BroughtBack(v: View, out: seq<Finished>, a: Answers, required: set<string>, b: Columns)
    requires HandsBack(v, out, ReadyAmong(Outstanding(v), a.atCollect), a.atCollect)
    ensures TicketsOf(out) == FinishedTickets(v, a.atCollect)
    ensures Reports(Collected(NOTHING_YET, out, a.harvest, required), TicketsOf(out), {})
    ensures !Collected(NOTHING_YET, out, a.harvest, required).registryError
    ensures Handed(b, Delivered(b, out, a.harvest, required), TicketsOf(out))
  {
    TicketsHandedBack(v, out, a.atCollect);
    CollectedReports(NOTHING_YET, out, a.harvest, required);
    DeliveredIsHanded(b, out, a.harvest, required);
  }

  ghost function Placed(b: Columns, attempted: set<TicketId>, session: TicketId -> Session, required: set<string>, canDetach: bool): Columns
  {
    map t | t in b.Keys + attempted ::
      if t in attempted then StateFor(OutcomeOfSession(session(t), required, canDetach)) else b[t]
  }

  class Runner {
    const humans: set<string>
    const required: set<string>
    const limit: int
    const queue: Option<int>
    const hasCollector: bool
    const jobs: JobRegistry
    var board: Columns
    ghost var peak: nat

    // `peak` is the most tickets ever in flight at once, between any two writes.
    ghost predicate Valid()
      reads this, jobs
    {
      jobs.Valid() && (queue.Some? ==> queue.value >= 1) && |InFlight(board)| <= peak
    }

    constructor (humans: set<string>, required: set<string>, limit: int, queue: Option<int>, hasCollector: bool, jobs: JobRegistry)
      requires jobs.Valid() && humans != {} && (queue.Some? ==> queue.value >= 1)
      ensures Valid() && board == map[] && peak == 0 && this.jobs == jobs && this.humans == humans
      ensures this.limit == limit && this.queue == queue && this.required == required && this.hasCollector == hasCollector
    {
      this.humans, this.required, this.limit, this.queue := humans, required, limit, queue;
      this.hasCollector, this.jobs := hasCollector, jobs;
      board, peak := map[], 0;
    }

    // Every change of the board goes through here, so `peak` sees each of them.
    method SetState(t: TicketId, s: TicketState)
      requires |InFlight(board)| <= peak
      modifies this`board, this`peak
      ensures board == old(board)[t := s] && |InFlight(board)| <= peak
      ensures peak == old(peak) || old(peak) < peak == |InFlight(board)| <= |InFlight(old(board))| + 1
      ensures !FlightState(s) ==> peak == old(peak)
    {
      MoveOne(board, t, s);
      board := board[t := s];
      peak := if |InFlight(board)| > peak then |InFlight(board)| else peak;
    }

    // Why a ticket is not eligible, or None. It asks about the needs-human label,
    // not about the Needs Human state.
    function Eligibility(t: BoardTicket, actor: Option<string>): (reason: Option<Skip>)
      ensures reason.None? <==>
                && AgentReady in t.labels && Lane in t.labels && NeedsHumanLabel !in t.labels
                && (t.state.Todo? || t.state.NeedsHuman?) && actor.Some? && actor.value in humans
      ensures reason.Some? ==> IsInTheWay(reason.value, t, actor)
    {
      if AgentReady !in t.labels then Some(NotAgentReady)
      else if Lane !in t.labels then Some(WrongLane)
      else if NeedsHumanLabel in t.labels then Some(NeedsAHuman)
      else if t.state.InProgress? || t.state.InReview? || t.state.RunningUnattended? then Some(AlreadyBusy)
      else if actor.None? then Some(NoActor)
      else if actor.value !in humans then Some(NotAHuman)
      else None
    }

    // This, and nothing before it in the order of the checks, keeps the ticket from
    // being eligible.
    ghost predicate IsInTheWay(why: Skip, t: BoardTicket, actor: Option<string>)
    {
      var ready, ours, held, busy := AgentReady in t.labels, Lane in t.labels, NeedsHumanLabel in t.labels,
                                     t.state in {InProgress, InReview, RunningUnattended};
      match why
      case NotAgentReady => !ready
      case WrongLane => ready && !ours
      case NeedsAHuman => ready && ours && held
      case AlreadyBusy => ready && ours && !held && busy
      case NoActor => ready && ours && !held && !busy && actor.None?
      case NotAHuman => ready && ours && !held && !busy && actor.Some? && actor.value !in humans
      case _ => false
    }

    // A listed human asked for it, on our lane, and nobody holds it or works on it.
    ghost predicate IsEligible(t: BoardTicket, actor: Option<string>)
    {
      && AgentReady in t.labels && Lane in t.labels && NeedsHumanLabel !in t.labels
      && t.state in {Todo, NeedsHuman} && actor.Some? && actor.value in humans
    }

    // Why a ticket was passed over: the first thing in its way.
    ghost predicate SkippedFor(why: Skip, t: BoardTicket, actor: Option<string>, lost: set<TicketId>, open: bool)
    {
      match why
      case GroundedThisTick => IsEligible(t, actor) && t.id in lost
      case BreakerIsOpen => IsEligible(t, actor) && t.id !in lost && open
      case NoConcurrency => IsEligible(t, actor) && t.id !in lost && !open
      case ReviewQueueFull => IsEligible(t, actor) && t.id !in lost && !open
      case _ => IsInTheWay(why, t, actor)
    }

    // Every ticket was attempted or has its reason; only eligible tickets whose job
    // was not lost were attempted, and only past a closed breaker.
    ghost predicate AllDecided(tickets: seq<BoardTicket>, a: Answers, lost: set<TicketId>, open: bool, attempted: set<TicketId>,
                               skipped: map<TicketId, Skip>)
    {
      && (attempted != {} ==> !open) && attempted !! lost
      && (forall t :: t in attempted || t in skipped ==> exists i :: 0 <= i < |tickets| && tickets[i].id == t)
      && (forall i :: 0 <= i < |tickets| ==> (tickets[i].id in attempted <==> tickets[i].id !in skipped))
      && (forall i :: 0 <= i < |tickets| && tickets[i].id in attempted ==> IsEligible(tickets[i], a.actor(tickets[i].id)))
      && (forall i :: 0 <= i < |tickets| && tickets[i].id in skipped ==>
            SkippedFor(skipped[tickets[i].id], tickets[i], a.actor(tickets[i].id), lost, open))
    }

    lemma DecidedMeans(tickets: seq<BoardTicket>, a: Answers, lost: set<TicketId>, open: bool, attempted: set<TicketId>,
                       skipped: map<TicketId, Skip>)
      requires Decided(tickets, |tickets|, a, lost, open, attempted, skipped)
      ensures AllDecided(tickets, a, lost, open, attempted, skipped)
    {
      forall t | t in attempted ensures !open && t !in lost {
        assert t in FirstIds(tickets, |tickets|);
        var i :| 0 <= i < |tickets| && tickets[i].id == t;
        NotBarredMeans(tickets[i], a.actor(t), lost, open);
      }
      forall i | 0 <= i < |tickets| && tickets[i].id in attempted ensures IsEligible(tickets[i], a.actor(tickets[i].id)) {
        NotBarredMeans(tickets[i], a.actor(tickets[i].id), lost, open);
      }
      forall i | 0 <= i < |tickets| && tickets[i].id in skipped
        ensures SkippedFor(skipped[tickets[i].id], tickets[i], a.actor(tickets[i].id), lost, open)
      {
        BlamedMeans(skipped[tickets[i].id], tickets[i], a.actor(tickets[i].id), lost, open);
      }
    }

    lemma NotBarredMeans(t: BoardTicket, actor: Option<string>, lost: set<TicketId>, open: bool)
      requires Barred(t, actor, lost, open).None?
      ensures !open && t.id !in lost && IsEligible(t, actor)
    {
    }

    lemma BlamedMeans(why: Skip, t: BoardTicket, actor: Option<string>, lost: set<TicketId>, open: bool)
      requires Blamed(Barred(t, actor, lost, open), why)
      ensures SkippedFor(why, t, actor, lost, open)
    {
    }

    // Of the tickets the runner has put somewhere, the only ones it may pick up
    // again are those in Needs Human on a tracker that shows that state as a state.
    // There the label a human would look for was never written.
    lemma ComesBackExactlyWhen(tracker: Tracker, t: BoardTicket, s: TicketState, actor: Option<string>)
      requires !s.Todo?
      ensures Eligibility(AfterWrite(tracker, t, s), actor).None? <==>
                && tracker.StateAsState? && s.NeedsHuman? && NeedsHumanLabel !in t.labels
                && AgentReady in t.labels && Lane in t.labels && actor.Some? && actor.value in humans
    {
      assert tracker.StateAsLabel? && s.NeedsHuman? ==> NeedsHumanLabel in AfterWrite(tracker, t, s).labels;
    }

    // What people do to the board between ticks.
    method PeopleMove(after: Columns)
      requires Valid() && HumanMove(board, after)
      modifies this`board
      ensures Valid() && board == after
    {
      SubsetSize(InFlight(after), InFlight(board));
      board := after;
    }

    static method Count(tickets: seq<BoardTicket>, states: set<TicketState>) returns (n: nat)
      requires Distinct(tickets)
      ensures n == |InColumns(tickets, states)|
    {
      n := 0;
      for i := 0 to |tickets|
        invariant n == |InColumns(tickets[..i], states)|
      {
        assert tickets[..i + 1] == tickets[..i] + [tickets[i]];
        OneMoreInColumns(tickets[..i], tickets[i], states);
        if tickets[i].state in states {
          n := n + 1;
        }
      }
      assert tickets[..|tickets|] == tickets;
    }

    // -- collecting and grounding --------------------------------------------

    // The only thing that moves a ticket out of Running Unattended because its
    // job finished.
    method CollectFinished(a: Answers) returns (done: set<TicketId>, r: TickResult, ghost out: seq<Finished>)
      requires Valid() && hasCollector
      modifies this`board, this`peak, jobs
      ensures Valid() && peak == old(peak) && old(jobs.history) <= jobs.history
      ensures done == TicketsOf(out) == FinishedTickets(old(jobs.Seen()), a.atCollect)
      ensures board == Delivered(old(board), out, a.harvest, required) && Handed(old(board), board, done)
      ensures r == Collected(NOTHING_YET.(registryError := r.registryError), out, a.harvest, required) && Reports(r, done, {})
      ensures r.registryError <==> done == {} && FailedAmong(Outstanding(old(jobs.Seen())), a.atCollect) != {}
      ensures jobs.Batch(old(jobs.Seen()), Outstanding(old(jobs.Seen())), {}, a.atCollect)
      ensures HandsBack(old(jobs.Seen()), out, ReadyAmong(Outstanding(old(jobs.Seen())), a.atCollect), a.atCollect)
      ensures forall t :: t in done ==> t in board && Collects(out, a.harvest, required, t, board[t])
      ensures CollectionSummary(out, a.harvest, required, r)
    {
      done, r, out := {}, NOTHING_YET, [];
      var finished := jobs.CollectFinished(a.atCollect);
      if finished.Refused? {
        r := r.(registryError := true);
        NothingFinished(old(jobs.Seen()), a.atCollect);
        CollectedSummary(r, [], a.harvest, required);
        return;
      }
      out := finished.value;
      BroughtBack(old(jobs.Seen()), out, a, required, board);
      done, r := HandOver(a, finished.value);
    }

    // Every finished job's ticket, where its harvest puts it.
    method HandOver(a: Answers, out: seq<Finished>) returns (done: set<TicketId>, r: TickResult)
      requires |InFlight(board)| <= peak
      modifies this`board, this`peak
      ensures |InFlight(board)| <= peak && peak == old(peak)
      ensures board == Delivered(old(board), out, a.harvest, required) && done == TicketsOf(out)
      ensures r == Collected(NOTHING_YET, out, a.harvest, required) && CollectionSummary(out, a.harvest, required, r)
      ensures forall t :: t in done ==> t in board && Collects(out, a.harvest, required, t, board[t])
    {
      r := Deliver(a, out, NOTHING_YET);
      done := set i | 0 <= i < |out| :: out[i].ticket;
      CollectedSummary(NOTHING_YET, out, a.harvest, required);
      forall t | t in done ensures t in board && Collects(out, a.harvest, required, t, board[t]) {
        DeliveredLands(old(board), out, a.harvest, required, t);
      }
    }

    // Adjudicate each finished job; its ticket ends in front of a person.
    method Deliver(a: Answers, out: seq<Finished>, before: TickResult) returns (r: TickResult)
      requires |InFlight(board)| <= peak
      modifies this`board, this`peak
      ensures |InFlight(board)| <= peak && peak == old(peak)
      ensures board == Delivered(old(board), out, a.harvest, required)
      ensures r == Collected(before, out, a.harvest, required)
    {
      r := before;
      for i := 0 to |out|
        invariant |InFlight(board)| <= peak && peak == old(peak)
        invariant board == Delivered(old(board), out[..i], a.harvest, required)
        invariant r == Collected(before, out[..i], a.harvest, required)
      {
        assert out[..i + 1][..i] == out[..i];
        var outcome := OutcomeOfHarvest(a.harvest(out[i].handle), required);
        SetState(out[i].ticket, StateFor(outcome));
        r := Entered(r, out[i].ticket, outcome, false);
      }
      assert out[..|out|] == out;
    }

    // Ground the tickets whose jobs vanished. None if the sweep raised, in which
    // case no ticket is grounded, not even those of losses already recorded.
    method ReconcileLost(a: Answers, before: TickResult) returns (grounded: Option<set<TicketId>>, r: TickResult)
      requires Valid() && before.lost == {}
      modifies this`board, this`peak, jobs
      ensures Valid() && peak == old(peak) && old(jobs.history) <= jobs.history
      ensures grounded.None? <==> SweepRaises(old(jobs.Seen()), old(jobs.clock), a.atSweep)
      ensures board == Grounded(old(board), grounded.GetOr({})) && r == before.(lost := grounded.GetOr({}))
      ensures grounded.None? ==> PartlySwept(jobs, old(jobs.Seen()), old(jobs.clock), a.atSweep)
      ensures grounded.Some? ==>
                && grounded.value == LossesAmong(old(jobs.Seen()), old(jobs.clock), Outstanding(old(jobs.Seen())), a.atSweep).Values
                && jobs.Swept(old(jobs.Seen()), old(jobs.clock), Outstanding(old(jobs.Seen())), {}, a.atSweep)
    {
      var swept, worked := jobs.Sweep(a.atSweep);
      if swept.Refused? {
        assert board == Grounded(board, {});
        return None, before;
      }
      assert Outstanding(old(jobs.Seen())) - worked == {};
      GroundAll(swept.value.Values);
      return Some(swept.value.Values), before.(lost := swept.value.Values);
    }

    method GroundAll(tickets: set<TicketId>)
      requires |InFlight(board)| <= peak
      modifies this`board, this`peak
      ensures |InFlight(board)| <= peak && peak == old(peak) && board == Grounded(old(board), tickets)
    {
      var left := tickets;
      while left != {}
        invariant left <= tickets && |InFlight(board)| <= peak && peak == old(peak)
        invariant board == Grounded(old(board), tickets - left)
      {
        var t :| t in left;
        SetState(t, NeedsHuman);
        assert tickets - (left - {t}) == tickets - left + {t};
        left := left - {t};
      }
      assert tickets - left == tickets;
    }

    // -- dispatch ------------------------------------------------------------

    // One agent session, from In Progress to wherever it lands. Other processes
    // submit to the registry meanwhile; this one closes nothing.
    method Dispatch(t: TicketId, a: Answers, before: TickResult) returns (r: TickResult)
      requires Valid()
      modifies this`board, this`peak, jobs
      ensures Valid() && peak <= old(if |InFlight(board)| + 1 > peak then |InFlight(board)| + 1 else peak)
      ensures old(jobs.history) <= jobs.history && StillOpen(old(jobs.Seen()), jobs.Seen())
      ensures var o := OutcomeOfSession(a.session(t), required, hasCollector);
              board == old(board)[t := StateFor(o)] && r == Entered(before, t, o, true)
      ensures SessionLands(a.session(t), required, hasCollector, board[t]) && Enters(before, r, t, a.session(t), required, hasCollector)
    {
      SetState(t, InProgress);
      jobs.OthersSubmit();
      var outcome := OutcomeOfSession(a.session(t), required, hasCollector);
      Land(t, outcome);
      SessionOutcomes(a.session(t), required, hasCollector);
      EnteredRightly(before, t, a.session(t), required, hasCollector);
      r := Entered(before, t, outcome, true);
    }

    method Land(t: TicketId, o: Outcome)
      requires |InFlight(board)| <= peak && t in InFlight(board)
      modifies this`board, this`peak
      ensures board == old(board)[t := StateFor(o)] && peak == old(peak) && |InFlight(board)| <= peak
    {
      ColumnsAfterMove(board, t, StateFor(o));
      SubsetSize(InFlight(board[t := StateFor(o)]), InFlight(board));
      SetState(t, StateFor(o));
    }

    // Why a ticket is passed over, the most specific reason first.
    function Barred(t: BoardTicket, actor: Option<string>, grounded: set<TicketId>, halted: bool): Option<Skip>
    {
      var reason := Eligibility(t, actor);
      if reason.Some? then reason
      else if t.id in grounded then Some(GroundedThisTick)
      else if halted then Some(BreakerIsOpen)
      else None
    }

    function PassedOver(t: BoardTicket, actor: Option<string>, grounded: set<TicketId>, halted: bool,
                        budget: nat, review: Option<nat>): (why: Option<Skip>)
      ensures why.None? <==> Barred(t, actor, grounded, halted).None? && budget > 0 && (review.Some? ==> review.value > 0)
      ensures why.Some? ==> Blamed(Barred(t, actor, grounded, halted), why.value)
      ensures why.Some? && why.value.NoConcurrency? ==> budget == 0
      ensures why.Some? && why.value.ReviewQueueFull? ==> review.Some? && review.value == 0 && budget > 0
    {
      var barred := Barred(t, actor, grounded, halted);
      if barred.Some? then barred
      else if budget == 0 then Some(NoConcurrency)
      else if review.Some? && review.value == 0 then Some(ReviewQueueFull)
      else None
    }

    // A budget is blamed only on a ticket nothing else bars.
    static ghost predicate Blamed(barred: Option<Skip>, why: Skip)
    {
      if barred.Some? then why == barred.value else why.NoConcurrency? || why.ReviewQueueFull?
    }

    // Pass one ticket over, or run a session for it.
    method Consider(tickets: seq<BoardTicket>, i: nat, a: Answers, grounded: set<TicketId>, halted: bool, budget: nat, review: Option<nat>,
                    before: TickResult, ghost b0: Columns, ghost attempted: set<TicketId>, ghost first: TickResult)
      returns (r: TickResult, why: Option<Skip>)
      requires Distinct(tickets)
      requires Valid() && i < |tickets| && Decided(tickets, i, a, grounded, halted, attempted, before.skipped)
      requires board == Placed(b0, attempted, a.session, required, hasCollector) && Reported(attempted, a.session, first, before)
      modifies this`board, this`peak, jobs
      ensures Valid() && old(jobs.history) <= jobs.history && StillOpen(old(jobs.Seen()), jobs.Seen())
      ensures peak <= old(peak) || (why.None? && peak <= |InFlight(b0)| + |attempted| + 1)
      ensures why == PassedOver(tickets[i], a.actor(tickets[i].id), grounded, halted, budget, review)
      ensures tickets[i].id !in attempted
      ensures r.skipped == if why.None? then before.skipped else before.skipped[tickets[i].id := why.value]
      ensures var now := if why.None? then attempted + {tickets[i].id} else attempted;
              && Decided(tickets, i + 1, a, grounded, halted, now, r.skipped)
              && board == Placed(b0, now, a.session, required, hasCollector)
              && Reported(now, a.session, first, r)
    {
      var t := tickets[i].id;
      assert t !in FirstIds(tickets, i);
      why := PassedOver(tickets[i], a.actor(t), grounded, halted, budget, review);
      if why.Some? {
        OneSkipped(tickets, i, a, grounded, halted, attempted, before.skipped, why.value);
        r := before.(skipped := before.skipped[t := why.value]);
      } else {
        OneAttempted(tickets, i, a, grounded, halted, attempted, before.skipped);
        OneReported(attempted, a.session, first, before, t);
        PlacedIsTakenUp(b0, attempted, a.session, required, hasCollector);
        ColumnsAfterTakingUp(b0, board, attempted);
        SubsetSize(InFlight(board), InFlight(b0) + attempted);
        SizeOfUnion(InFlight(b0), attempted);
        PlacedMore(b0, attempted, a.session, required, hasCollector, t);
        r := Dispatch(t, a, before);
      }
    }

    // Work down the list while both budgets last.
    method DispatchAll(tickets: seq<BoardTicket>, a: Answers, grounded: set<TicketId>, halted: bool,
                       most: nat, room: Option<nat>, before: TickResult)
      returns (r: TickResult, ghost attempted: set<TicketId>)
      requires Valid() && before.skipped == map[] && before.dispatched == {} && before.submitted == map[]
      requires Distinct(tickets)
      modifies this`board, this`peak, jobs
      ensures Valid() && old(jobs.history) <= jobs.history && StillOpen(old(jobs.Seen()), jobs.Seen())
      ensures board == Placed(old(board), attempted, a.session, required, hasCollector)
      ensures peak <= old(peak) || peak <= |InFlight(old(board))| + |attempted|
      ensures Decided(tickets, |tickets|, a, grounded, halted, attempted, r.skipped)
      ensures Spent(|attempted|, most, room, r.skipped)
      ensures Reported(attempted, a.session, before, r)
      ensures AllDecided(tickets, a, grounded, halted, attempted, r.skipped)
      ensures Placement(old(board), board, [], {}, attempted, a)
    {
      ghost var b0 := board;
      r, attempted := DispatchEach(tickets, a, grounded, halted, most, room, before);
      DecidedMeans(tickets, a, grounded, halted, attempted, r.skipped);
      OnlySessionsPlaced(b0, attempted, a);
    }

    method DispatchEach(tickets: seq<BoardTicket>, a: Answers, grounded: set<TicketId>, halted: bool,
                        most: nat, room: Option<nat>, before: TickResult)
      returns (r: TickResult, ghost attempted: set<TicketId>)
      requires Valid() && before.skipped == map[] && Distinct(tickets)
      modifies this`board, this`peak, jobs
      ensures Valid() && old(jobs.history) <= jobs.history && StillOpen(old(jobs.Seen()), jobs.Seen())
      ensures board == Placed(old(board), attempted, a.session, required, hasCollector)
      ensures peak <= old(peak) || peak <= |InFlight(old(board))| + |attempted|
      ensures Decided(tickets, |tickets|, a, grounded, halted, attempted, r.skipped)
      ensures Spent(|attempted|, most, room, r.skipped)
      ensures Reported(attempted, a.session, before, r)
    {
      r, attempted := before, {};
      var budget, review := most, room;
      ghost var b0 := board;
      NothingListed(tickets, a, grounded, halted, most, room, before, b0);
      for i := 0 to |tickets|
        invariant Valid() && old(jobs.history) <= jobs.history && StillOpen(old(jobs.Seen()), jobs.Seen())
        invariant board == Placed(b0, attempted, a.session, required, hasCollector)
        invariant peak <= old(peak) || peak <= |InFlight(b0)| + |attempted|
        invariant Decided(tickets, i, a, grounded, halted, attempted, r.skipped)
        invariant Account(attempted, most, room, budget, review, r.skipped)
        invariant Reported(attempted, a.session, before, r)
      {
        r, budget, review, attempted :=
          ConsiderNext(tickets, i, a, grounded, halted, budget, review, r, most, room, b0, attempted, before);
      }
    }

    // Before the first ticket.
    lemma NothingListed(tickets: seq<BoardTicket>, a: Answers, grounded: set<TicketId>, halted: bool,
                        most: nat, room: Option<nat>, before: TickResult, b: Columns)
      requires before.skipped == map[]
      ensures Decided(tickets, 0, a, grounded, halted, {}, before.skipped) && Account({}, most, room, most, room, before.skipped)
      ensures Reported({}, a.session, before, before) && b == Placed(b, {}, a.session, required, hasCollector)
    {
    }

    lemma OnlySessionsPlaced(b: Columns, attempted: set<TicketId>, a: Answers)
      ensures Placement(b, Placed(b, attempted, a.session, required, hasCollector), [], {}, attempted, a)
    {
      assert TicketsOf([]) == {} && Placement(b, b, [], {}, {}, a);
      PlacedLands(b, b, [], {}, attempted, a);
    }

    // One ticket, and what it leaves of the budgets.
    method ConsiderNext(tickets: seq<BoardTicket>, i: nat, a: Answers, grounded: set<TicketId>, halted: bool,
                        budget: nat, review: Option<nat>, before: TickResult, ghost most: nat, ghost room: Option<nat>,
                        ghost b0: Columns, ghost attempted: set<TicketId>, ghost first: TickResult)
      returns (r: TickResult, budget': nat, review': Option<nat>, ghost now: set<TicketId>)
      requires Distinct(tickets)
      requires Valid() && i < |tickets| && Decided(tickets, i, a, grounded, halted, attempted, before.skipped)
      requires board == Placed(b0, attempted, a.session, required, hasCollector) && Reported(attempted, a.session, first, before)
      requires Account(attempted, most, room, budget, review, before.skipped)
      modifies this`board, this`peak, jobs
      ensures Valid() && old(jobs.history) <= jobs.history && StillOpen(old(jobs.Seen()), jobs.Seen())
      ensures |now| >= |attempted| && (peak <= old(peak) || peak <= |InFlight(b0)| + |now|)
      ensures Decided(tickets, i + 1, a, grounded, halted, now, r.skipped)
      ensures board == Placed(b0, now, a.session, required, hasCollector)
      ensures Account(now, most, room, budget', review', r.skipped)
      ensures Reported(now, a.session, first, r)
    {
      var why;
      r, why := Consider(tickets, i, a, grounded, halted, budget, review, before, b0, attempted, first);
      AccountOne(attempted, most, room, budget, review, before.skipped, tickets[i].id, why);
      if why.None? {
        return r, budget - 1, Less(review), attempted + {tickets[i].id};
      }
      return r, budget, review, attempted;
    }

    // Of the first n tickets each was attempted or has a reason, and an attempted
    // one was eligible, not grounded, and met a closed breaker.
    ghost predicate Decided(tickets: seq<BoardTicket>, n: nat, a: Answers, grounded: set<TicketId>, halted: bool,
                           attempted: set<TicketId>, skipped: map<TicketId, Skip>)
      requires n <= |tickets|
    {
      && attempted + skipped.Keys <= FirstIds(tickets, n)
      && (forall i :: 0 <= i < n ==> (tickets[i].id in attempted <==> tickets[i].id !in skipped))
      && (forall i :: 0 <= i < n && tickets[i].id in attempted ==>
            Barred(tickets[i], a.actor(tickets[i].id), grounded, halted).None?)
      && (forall i :: 0 <= i < n && tickets[i].id in skipped ==>
            Blamed(Barred(tickets[i], a.actor(tickets[i].id), grounded, halted), skipped[tickets[i].id]))
    }

    lemma OneSkipped(tickets: seq<BoardTicket>, n: nat, a: Answers, grounded: set<TicketId>, halted: bool,
                     attempted: set<TicketId>, skipped: map<TicketId, Skip>, why: Skip)
      requires Distinct(tickets)
      requires n < |tickets| && Decided(tickets, n, a, grounded, halted, attempted, skipped)
      requires Blamed(Barred(tickets[n], a.actor(tickets[n].id), grounded, halted), why)
      ensures Decided(tickets, n + 1, a, grounded, halted, attempted, skipped[tickets[n].id := why])
    {
      assert tickets[n].id !in FirstIds(tickets, n);
    }

    lemma OneAttempted(tickets: seq<BoardTicket>, n: nat, a: Answers, grounded: set<TicketId>, halted: bool,
                       attempted: set<TicketId>, skipped: map<TicketId, Skip>)
      requires Distinct(tickets)
      requires n < |tickets| && Decided(tickets, n, a, grounded, halted, attempted, skipped)
      requires Barred(tickets[n], a.actor(tickets[n].id), grounded, halted).None?
      ensures Decided(tickets, n + 1, a, grounded, halted, attempted + {tickets[n].id}, skipped)
    {
      assert tickets[n].id !in FirstIds(tickets, n);
    }

    lemma OneReported(attempted: set<TicketId>, session: TicketId -> Session, first: TickResult, r: TickResult, t: TicketId)
      requires Reported(attempted, session, first, r) && t !in attempted
      ensures Reported(attempted + {t}, session, first, Entered(r, t, OutcomeOfSession(session(t), required, hasCollector), true))
    {
      EnteredRightly(r, t, session(t), required, hasCollector);
      OneEntered(attempted, session, first, r, t, Entered(r, t, OutcomeOfSession(session(t), required, hasCollector), true));
    }

    lemma OneEntered(attempted: set<TicketId>, session: TicketId -> Session, first: TickResult, r: TickResult, t: TicketId, r': TickResult)
      requires Reported(attempted, session, first, r) && t !in attempted && Enters(r, r', t, session(t), required, hasCollector)
      ensures Reported(attempted + {t}, session, first, r')
    {
      WorkEntered(attempted, session, first, r, t, r');
      TroubleEntered(attempted, session, first, r, t, r');
    }

    lemma WorkEntered(attempted: set<TicketId>, session: TicketId -> Session, first: TickResult, r: TickResult, t: TicketId, r': TickResult)
      requires ReportedWork(attempted, session, first, r) && t !in attempted && Enters(r, r', t, session(t), required, hasCollector)
      ensures ReportedWork(attempted + {t}, session, first, r')
    {
      OneMoreSuch(attempted, t, u => session(u).Returns? && Passes(session(u).verdict, required));
      OneMoreSuch(attempted, t, u => session(u).Submits? && hasCollector);
    }

    lemma TroubleEntered(attempted: set<TicketId>, session: TicketId -> Session, first: TickResult, r: TickResult, t: TicketId, r': TickResult)
      requires ReportedTrouble(attempted, session, first, r) && t !in attempted && Enters(r, r', t, session(t), required, hasCollector)
      ensures ReportedTrouble(attempted + {t}, session, first, r')
    {
      OneMoreSuch(attempted, t, u => SessionBreaks(session(u)));
      OneMoreSuch(attempted, t, u => SessionIsRefused(session(u), required, hasCollector));
    }

    // Neither budget is overdrawn, and neither is blamed while some of it is left.
    ghost predicate Spent(n: nat, most: nat, room: Option<nat>, skipped: map<TicketId, Skip>)
    {
      && n <= most && (room.Some? ==> n <= room.value)
      && forall t :: t in skipped ==>
           && (skipped[t].NoConcurrency? ==> n == most)
           && (skipped[t].ReviewQueueFull? ==> room.Some? && room.value == n && n < most)
    }

    ghost predicate Account(attempted: set<TicketId>, most: nat, room: Option<nat>,
                         budget: nat, review: Option<nat>, skipped: map<TicketId, Skip>)
    {
      && Spent(|attempted|, most, room, skipped) && budget == most - |attempted|
      && review.Some? == room.Some? && (room.Some? ==> review.value == room.value - |attempted|)
    }

    static function Less(b: Option<nat>): Option<nat>
      requires b.Some? ==> b.value > 0
    {
      if b.Some? then Some(b.value - 1) else None
    }

    lemma AccountAttempt(attempted: set<TicketId>, most: nat, room: Option<nat>,
                         budget: nat, review: Option<nat>, skipped: map<TicketId, Skip>, t: TicketId)
      requires Account(attempted, most, room, budget, review, skipped) && t !in attempted
      requires budget > 0 && (review.Some? ==> review.value > 0)
      ensures Account(attempted + {t}, most, room, budget - 1, Less(review), skipped)
    {
    }

    lemma AccountSkip(attempted: set<TicketId>, most: nat, room: Option<nat>,
                         budget: nat, review: Option<nat>, skipped: map<TicketId, Skip>, t: TicketId, why: Skip)
      requires Account(attempted, most, room, budget, review, skipped)
      requires why.NoConcurrency? ==> budget == 0
      requires why.ReviewQueueFull? ==> review.Some? && review.value == 0 && budget > 0
      ensures Account(attempted, most, room, budget, review, skipped[t := why])
    {
    }

    lemma AccountOne(attempted: set<TicketId>, most: nat, room: Option<nat>,
                     budget: nat, review: Option<nat>, skipped: map<TicketId, Skip>, t: TicketId, why: Option<Skip>)
      requires Account(attempted, most, room, budget, review, skipped) && t !in attempted
      requires why.None? ==> budget > 0 && (review.Some? ==> review.value > 0)
      requires why.Some? && why.value.NoConcurrency? ==> budget == 0
      requires why.Some? && why.value.ReviewQueueFull? ==> review.Some? && review.value == 0 && budget > 0
      ensures why.None? ==> Account(attempted + {t}, most, room, budget - 1, Less(review), skipped)
      ensures why.Some? ==> Account(attempted, most, room, budget, review, skipped[t := why.value])
    {
      if why.None? {
        AccountAttempt(attempted, most, room, budget, review, skipped, t);
      } else {
        AccountSkip(attempted, most, room, budget, review, skipped, t, why.value);
      }
    }

    // The sessions of the attempted tickets, each entered in the summary.
    ghost predicate Reported(attempted: set<TicketId>, session: TicketId -> Session, first: TickResult, r: TickResult)
    {
      && ReportedWork(attempted, session, first, r) && ReportedTrouble(attempted, session, first, r)
      && r.collected == first.collected && r.lost == first.lost && r.registryError == first.registryError
    }

    ghost predicate ReportedWork(attempted: set<TicketId>, session: TicketId -> Session, first: TickResult, r: TickResult)
    {
      && r.dispatched == first.dispatched + (set t | t in attempted && session(t).Returns? && Passes(session(t).verdict, required))
      && r.submitted.Keys == first.submitted.Keys + (set t | t in attempted && session(t).Submits? && hasCollector)
      && (forall t :: t in r.submitted ==>
            r.submitted[t] == if t in attempted && session(t).Submits? && hasCollector then session(t).handle else first.submitted[t])
    }

    ghost predicate ReportedTrouble(attempted: set<TicketId>, session: TicketId -> Session, first: TickResult, r: TickResult)
    {
      && r.failed == first.failed + (set t | t in attempted && SessionBreaks(session(t)))
      && r.refused == first.refused + (set t | t in attempted && SessionIsRefused(session(t), required, hasCollector))
    }

    // -- one tick ------------------------------------------------------------

    method Halted() returns (halted: bool)
      requires Valid()
      modifies jobs`damaged
      ensures Valid() && jobs.Seen() == old(jobs.Seen()) && jobs.history == old(jobs.history)
      ensures halted <==> Breaker(jobs.rows).Some?
    {
      var reason := jobs.BreakerReason();
      halted := reason.Some?;
    }

    // Collect, then sweep. `grounded` is None if the sweep raised, which ends the
    // tick; `swept` is the history when it began.
    method Gather(a: Answers)
      returns (r: TickResult, done: set<TicketId>, grounded: Option<set<TicketId>>, ghost swept: seq<Action>, ghost out: seq<Finished>)
      requires Valid()
      modifies this`board, this`peak, jobs
      ensures Valid() && peak == old(peak) && old(jobs.history) <= swept <= jobs.history
      ensures grounded.GetOr({}) <= OpenTickets(SeenAt(jobs.start, swept))
      ensures done == TicketsOf(out) == if hasCollector then FinishedTickets(old(jobs.Seen()), a.atCollect) else {}
      ensures Handed(old(board), board, done + grounded.GetOr({})) && Reports(r, done, grounded.GetOr({}))
      ensures Brought(old(board), board, old(jobs.Seen()), out, grounded.GetOr({}), a, r)
      ensures LostAt(jobs.start, swept, grounded, a)
      ensures grounded.Some? && ParkedSteadily(old(board), old(jobs.Seen()), a) ==>
                Parked(board, jobs.Seen(), Outstanding(old(jobs.Seen())))
    {
      ghost var was, b0 := jobs.Seen(), board;
      ghost var among := Outstanding(was) - ReadyAmong(Outstanding(was), a.atCollect);
      done, r, out := CollectIfAny(a);
      swept := jobs.history;
      ghost var mid, b1, now, first := jobs.Seen(), board, jobs.clock, r;
      OnlyOpenOnesMove(mid, now, a.atSweep);
      assert mid == SeenAt(jobs.start, swept);
      grounded, r := ReconcileLost(a, r);
      ghost var b2, last := board, jobs.Seen();
      HandedThenGrounded(b0, b1, done, grounded.GetOr({}));
      BroughtThenGrounded(b0, b1, was, out, grounded.GetOr({}), a, first, r);
      if grounded.Some? && ParkedSteadily(b0, was, a) {
        SweepingStrandsNobody(jobs, b1, b2, mid, now, among, a.atSweep);
        ParkedAmongMore(b2, last, among, Outstanding(was));
      }
    }

    method CollectIfAny(a: Answers) returns (done: set<TicketId>, r: TickResult, ghost out: seq<Finished>)
      requires Valid()
      modifies this`board, this`peak, jobs
      ensures Valid() && peak == old(peak) && old(jobs.history) <= jobs.history
      ensures done == TicketsOf(out) == if hasCollector then FinishedTickets(old(jobs.Seen()), a.atCollect) else {}
      ensures Handed(old(board), board, done) && Reports(r, done, {})
      ensures Brought(old(board), board, old(jobs.Seen()), out, {}, a, r)
      ensures ParkedSteadily(old(board), old(jobs.Seen()), a) ==>
                Parked(board, jobs.Seen(), Outstanding(old(jobs.Seen())) - ReadyAmong(Outstanding(old(jobs.Seen())), a.atCollect))
    {
      ghost var was, b0 := jobs.Seen(), board;
      if hasCollector {
        done, r, out := CollectFinished(a);
        CollectedIsBrought(b0, board, was, out, a, r);
        if Parked(b0, was, Outstanding(was)) {
          CollectingStrandsNobody(jobs, b0, board, was, a.atCollect);
        }
      } else {
        done, r, out := {}, NOTHING_YET, [];
        NothingBrought(board, was, a);
      }
    }

    lemma CollectedIsBrought(b: Columns, b1: Columns, was: View, out: seq<Finished>, a: Answers, r: TickResult)
      requires hasCollector && HandsBack(was, out, ReadyAmong(Outstanding(was), a.atCollect), a.atCollect)
      requires Handed(b, b1, TicketsOf(out)) && CollectionSummary(out, a.harvest, required, r)
      requires forall t :: t in TicketsOf(out) ==> t in b1 && Collects(out, a.harvest, required, t, b1[t])
      requires r.registryError <==> TicketsOf(out) == {} && FailedAmong(Outstanding(was), a.atCollect) != {}
      ensures Brought(b, b1, was, out, {}, a, r)
    {
      assert out != [] ==> out[0].ticket in TicketsOf(out);
    }

    lemma NothingBrought(b: Columns, was: View, a: Answers)
      requires !hasCollector
      ensures Brought(b, b, was, [], {}, a, NOTHING_YET) && TicketsOf([]) == {}
    {
    }

    lemma BroughtThenGrounded(b: Columns, b1: Columns, was: View, out: seq<Finished>, lost: set<TicketId>, a: Answers,
                              first: TickResult, r: TickResult)
      requires Brought(b, b1, was, out, {}, a, first) && r == first.(lost := lost)
      ensures Brought(b, Grounded(b1, lost), was, out, lost, a, r)
    {
    }

    // What collecting and sweeping left on the board and in the summary.
    ghost predicate Brought(b: Columns, b': Columns, was: View, out: seq<Finished>, lost: set<TicketId>, a: Answers, r: TickResult)
    {
      && HandsBack(was, out, if hasCollector then ReadyAmong(Outstanding(was), a.atCollect) else {}, a.atCollect)
      && (!hasCollector ==> out == [])
      && Placement(b, b', out, lost, {}, a) && CollectionSummary(out, a.harvest, required, r)
      && (r.registryError <==> hasCollector && out == [] && FailedAmong(Outstanding(was), a.atCollect) != {})
    }

    // Where a tick leaves every ticket: where its session landed it, in Needs Human
    // if its job was lost, where its finished job put it, or where it was.
    ghost predicate Placement(b: Columns, b': Columns, out: seq<Finished>, lost: set<TicketId>, attempted: set<TicketId>, a: Answers)
    {
      && b'.Keys == b.Keys + TicketsOf(out) + lost + attempted
      && forall t :: t in b' ==>
           if t in attempted then SessionLands(a.session(t), required, hasCollector, b'[t])
           else if t in lost then b'[t] == NeedsHuman
           else if t in TicketsOf(out) then Collects(out, a.harvest, required, t, b'[t])
           else b'[t] == b[t]
    }

    // The sessions and the finished jobs of a tick, each under its own heading.
    ghost predicate Summary(out: seq<Finished>, attempted: set<TicketId>, a: Answers, r: TickResult)
    {
      && r.dispatched == (set t | t in attempted && a.session(t).Returns? && Passes(a.session(t).verdict, required))
      && r.submitted.Keys == (set t | t in attempted && a.session(t).Submits? && hasCollector)
      && (forall t :: t in r.submitted ==> a.session(t).Submits? && r.submitted[t] == a.session(t).handle)
      && exists brought :: CollectionSummary(out, a.harvest, required, brought)
           && r.collected == brought.collected
           && r.failed == brought.failed + (set t | t in attempted && SessionBreaks(a.session(t)))
           && r.refused == brought.refused + (set t | t in attempted && SessionIsRefused(a.session(t), required, hasCollector))
           && r.registryError == brought.registryError
    }

    lemma PlacedLands(b: Columns, b1: Columns, out: seq<Finished>, lost: set<TicketId>, attempted: set<TicketId>, a: Answers)
      requires Placement(b, b1, out, lost, {}, a)
      ensures Placement(b, Placed(b1, attempted, a.session, required, hasCollector), out, lost, attempted, a)
    {
      forall t | t in attempted
        ensures SessionLands(a.session(t), required, hasCollector, StateFor(OutcomeOfSession(a.session(t), required, hasCollector)))
      {
        SessionOutcomes(a.session(t), required, hasCollector);
      }
    }

    // Gather, then read the breaker the sweep may have opened.
    method GatherAndLook(a: Answers)
      returns (r: TickResult, done: set<TicketId>, grounded: Option<set<TicketId>>, halted: bool, ghost swept: seq<Action>,
               ghost out: seq<Finished>)
      requires Valid()
      modifies this`board, this`peak, jobs
      ensures Valid() && peak == old(peak) && old(jobs.history) <= swept <= jobs.history
      ensures done <= OpenTickets(old(jobs.Seen())) && grounded.GetOr({}) <= OpenTickets(SeenAt(jobs.start, swept))
      ensures done == TicketsOf(out) == if hasCollector then FinishedTickets(old(jobs.Seen()), a.atCollect) else {}
      ensures Handed(old(board), board, done + grounded.GetOr({})) && Reports(r, done, grounded.GetOr({}))
      ensures Brought(old(board), board, old(jobs.Seen()), out, grounded.GetOr({}), a, r)
      ensures LostAt(jobs.start, swept, grounded, a)
      ensures grounded.Some? && ParkedSteadily(old(board), old(jobs.Seen()), a) ==>
                Parked(board, jobs.Seen(), Outstanding(old(jobs.Seen())))
      ensures halted <==> Breaker(jobs.rows).Some?
    {
      OnlyOpenOnesMove(jobs.Seen(), jobs.clock, a.atCollect);
      r, done, grounded, swept, out := Gather(a);
      halted := Halted();
    }

    // What holds before a tick for it to strand nobody: every parked ticket has an
    // open job, and no answer about those jobs changes within the tick.
    ghost predicate ParkedSteadily(b: Columns, v: View, a: Answers)
    {
      hasCollector && Parked(b, v, Outstanding(v)) && Steady(a, Outstanding(v))
    }

    method Budgets(tickets: seq<BoardTicket>, moved: nat, ghost b: Columns) returns (budget: nat, review: Option<nat>)
      requires Snapshot(b, tickets)
      ensures Allowed(b, moved, budget, review)
    {
      SnapshotCounts(b, tickets);
      var flying := Count(tickets, {InProgress, RunningUnattended});
      budget := AtLeastZero(limit - flying);
      if queue.None? {
        review := None;
      } else {
        var waiting := Count(tickets, {InReview, NeedsHuman});
        review := Some(AtLeastZero(queue.value - waiting - moved));
      }
    }

    // What is left of both limits.
    ghost predicate Allowed(b: Columns, moved: nat, budget: nat, review: Option<nat>)
    {
      && budget == AtLeastZero(limit - |InFlight(b)|) && review.Some? == queue.Some?
      && (queue.Some? ==> review.value == AtLeastZero(queue.value - |Waiting(b)| - moved))
    }

    lemma TickEffects(b: Columns, b1: Columns, brought: set<TicketId>, grounded: set<TicketId>, moved: nat, attempted: set<TicketId>,
                      budget: nat, review: Option<nat>, skipped: map<TicketId, Skip>, a: Answers)
      requires Handed(b, b1, brought + grounded) && moved == |brought| + |grounded|
      requires Allowed(b, moved, budget, review) && Spent(|attempted|, budget, review, skipped)
      ensures TickEffect(limit, queue, b, Placed(b1, attempted, a.session, required, hasCollector), attempted, brought + grounded)
      ensures Exhausted(b, |attempted|, moved, skipped)
      ensures |InFlight(b1)| <= |InFlight(b)| && (attempted != {} ==> |InFlight(b)| + |attempted| <= limit)
    {
      var b' := Placed(b1, attempted, a.session, required, hasCollector);
      SizeOfUnion(brought, grounded);
      PlacedIsTakenUp(b1, attempted, a.session, required, hasCollector);
      HandedThenTakenUp(limit, queue, b, b1, b', attempted, brought + grounded);
    }

    // Dispatch what the breaker and the budgets allow. The tickets were read before
    // the sweep, so what was moved since counts against the review budget on top.
    method DispatchWithin(tickets: seq<BoardTicket>, a: Answers, brought: set<TicketId>, grounded: set<TicketId>, halted: bool,
                          before: TickResult, ghost b0: Columns)
      returns (r: TickResult, ghost attempted: set<TicketId>)
      requires Valid() && Snapshot(b0, tickets) && Reports(before, brought, grounded)
      requires Handed(b0, board, brought + grounded) && |InFlight(b0)| <= peak
      modifies this`board, this`peak, jobs
      ensures Valid() && old(jobs.history) <= jobs.history && StillOpen(old(jobs.Seen()), jobs.Seen())
      ensures board == Placed(old(board), attempted, a.session, required, hasCollector)
      ensures TickEffect(limit, queue, b0, board, attempted, brought + grounded)
      ensures peak <= old(peak) || peak <= limit
      ensures Exhausted(b0, |attempted|, |brought| + |grounded|, r.skipped)
      ensures Accounted(tickets, a, halted, attempted, before, r) && r.lost == grounded
    {
      ghost var b1 := board;
      var moved := |brought| + |grounded|;
      var budget, review := Budgets(tickets, moved, b0);
      r, attempted := DispatchAll(tickets, a, grounded, halted, budget, review, before);
      TickEffects(b0, b1, brought, grounded, moved, attempted, budget, review, r.skipped, a);
    }

    // The second half of a tick, if the sweep let it come to that.
    method Act(tickets: seq<BoardTicket>, a: Answers, brought: set<TicketId>, grounded: Option<set<TicketId>>, halted: bool,
               before: TickResult, ghost b0: Columns)
      returns (r: Option<TickResult>, ghost attempted: set<TicketId>)
      requires Valid() && Snapshot(b0, tickets) && Reports(before, brought, grounded.GetOr({}))
      requires Handed(b0, board, brought + grounded.GetOr({})) && |InFlight(b0)| <= peak
      modifies this`board, this`peak, jobs
      ensures Valid() && old(jobs.history) <= jobs.history && StillOpen(old(jobs.Seen()), jobs.Seen())
      ensures r.Some? <==> grounded.Some?
      ensures LostIn(r) == grounded.GetOr({}) && (r.None? ==> attempted == {})
      ensures board == Placed(old(board), attempted, a.session, required, hasCollector)
      ensures TickEffect(limit, queue, b0, board, attempted, brought + LostIn(r))
      ensures peak <= old(peak) || peak <= limit
      ensures r.Some? ==> Exhausted(b0, |attempted|, |brought| + |r.value.lost|, r.value.skipped)
      ensures r.Some? ==> Accounted(tickets, a, halted, attempted, before, r.value)
    {
      if grounded.None? {
        PlacedNothing(board, a.session, required, hasCollector);
        NothingTried(b0, board, brought, a);
        return None, {};
      }
      var summary;
      summary, attempted := DispatchWithin(tickets, a, brought, grounded.value, halted, before, b0);
      r := Some(summary);
    }

    // The same, in terms of sessions, finished jobs and the board before the tick.
    method ActAndTell(tickets: seq<BoardTicket>, a: Answers, brought: set<TicketId>, grounded: Option<set<TicketId>>, halted: bool,
                      before: TickResult, ghost b0: Columns, ghost was: View, ghost out: seq<Finished>)
      returns (r: Option<TickResult>, ghost attempted: set<TicketId>)
      requires Valid() && Snapshot(b0, tickets) && Reports(before, brought, grounded.GetOr({})) && brought == TicketsOf(out)
      requires Handed(b0, board, brought + grounded.GetOr({})) && |InFlight(b0)| <= peak
      requires Brought(b0, board, was, out, grounded.GetOr({}), a, before)
      modifies this`board, this`peak, jobs
      ensures Valid() && old(jobs.history) <= jobs.history
      ensures r.Some? <==> grounded.Some?
      ensures LostIn(r) == grounded.GetOr({}) && (r.None? ==> attempted == {})
      ensures TickEffect(limit, queue, b0, board, attempted, brought + LostIn(r))
      ensures peak <= old(peak) || peak <= limit
      ensures r.Some? ==> Exhausted(b0, |attempted|, |brought| + |r.value.lost|, r.value.skipped)
      ensures Placement(b0, board, out, LostIn(r), attempted, a)
      ensures r.Some? ==> Summary(out, attempted, a, r.value) && r.value.registryError == before.registryError
      ensures r.Some? ==> AllDecided(tickets, a, r.value.lost, halted, attempted, r.value.skipped)
      ensures r.Some? && Parked(old(board), old(jobs.Seen()), Outstanding(was)) && Issued(r.value.submitted, jobs.Seen()) ==>
                Parked(board, jobs.Seen(), Outstanding(jobs.Seen()))
    {
      ghost var b1, mid := board, jobs.Seen();
      r, attempted := Act(tickets, a, brought, grounded, halted, before, b0);
      PlacedLands(b0, b1, out, LostIn(r), attempted, a);
      if r.Some? {
        DecidedMeans(tickets, a, r.value.lost, halted, attempted, r.value.skipped);
        Summarised(out, attempted, a, before, r.value);
        if Parked(b1, mid, Outstanding(was)) && Issued(r.value.submitted, jobs.Seen()) {
          DispatchingStrandsNobody(b1, mid, jobs.Seen(), Outstanding(was), attempted, before, r.value, a);
        }
      }
    }

    // `out` are the finished jobs it handed on; `swept` and `gate` are the history
    // when the sweep began and when the breaker was read.
    method Tick(tickets: seq<BoardTicket>, a: Answers)
      returns (r: Option<TickResult>, ghost out: seq<Finished>, ghost attempted: set<TicketId>, ghost swept: seq<Action>, ghost gate: seq<Action>,
               ghost halted: bool)
      requires Valid() && Snapshot(board, tickets)
      modifies this`board, this`peak, jobs
      ensures Valid() && old(jobs.history) <= swept <= gate <= jobs.history
      ensures TicketsOf(out) <= OpenTickets(old(jobs.Seen())) && LostIn(r) <= OpenTickets(SeenAt(jobs.start, swept))
      ensures HandsBack(old(jobs.Seen()), out, if hasCollector then ReadyAmong(Outstanding(old(jobs.Seen())), a.atCollect) else {}, a.atCollect)
      ensures !hasCollector ==> out == []
      ensures LostAt(jobs.start, swept, if r.None? then None else Some(r.value.lost), a)
      ensures Placement(old(board), board, out, LostIn(r), attempted, a)
      ensures r.None? ==> attempted == {}
      ensures r.Some? ==> Summary(out, attempted, a, r.value)
      ensures r.Some? ==> (r.value.registryError <==>
                             hasCollector && out == [] && FailedAmong(Outstanding(old(jobs.Seen())), a.atCollect) != {})
      ensures halted <==> Breaker(After(jobs.start, gate).log.rows).Some?
      ensures r.Some? ==> AllDecided(tickets, a, r.value.lost, halted, attempted, r.value.skipped)
      ensures r.Some? ==> Exhausted(old(board), |attempted|, |TicketsOf(out)| + |r.value.lost|, r.value.skipped)
      ensures TickEffect(limit, queue, old(board), board, attempted, TicketsOf(out) + LostIn(r))
      ensures queue.Some? ==> (Total(board) < queue.value + limit <==> Fits(old(board), TicketsOf(out) + LostIn(r)))
      ensures peak <= old(peak) || peak <= limit
      ensures r.Some? && ParkedSteadily(old(board), old(jobs.Seen()), a) && Issued(r.value.submitted, jobs.Seen()) ==>
                Parked(board, jobs.Seen(), Outstanding(jobs.Seen()))
    {
      ghost var b0, was := board, jobs.Seen();
      var summary, brought, grounded, open;
      summary, brought, grounded, open, swept, out := GatherAndLook(a);
      halted := open;
      gate := jobs.history;
      assert halted <==> Breaker(After(jobs.start, gate).log.rows).Some?;
      r, attempted := ActAndTell(tickets, a, brought, grounded, open, summary, b0, was, out);
      if queue.Some? {
        TickFitsExactlyWhen(limit, queue.value, b0, board, attempted, brought + LostIn(r));
      }
    }

    lemma Summarised(out: seq<Finished>, attempted: set<TicketId>, a: Answers, before: TickResult, r: TickResult)
      requires before.dispatched == {} && before.submitted == map[] && CollectionSummary(out, a.harvest, required, before)
      requires Reported(attempted, a.session, before, r)
      ensures Summary(out, attempted, a, r)
    {
    }

    // -- tick after tick -----------------------------------------------------

    // The tracker's tickets, as a tick reads them.
    method OpenTicketsNow(labels: TicketId -> set<Label>) returns (tickets: seq<BoardTicket>)
      ensures Snapshot(board, tickets) && Labelled(labels, tickets)
    {
      tickets := [];
      var left := board.Keys;
      while left != {}
        invariant left <= board.Keys && Distinct(tickets) && Labelled(labels, tickets)
        invariant forall i :: 0 <= i < |tickets| ==>
                    tickets[i].id in board && tickets[i].id !in left && board[tickets[i].id] == tickets[i].state
        invariant forall t :: t in board && t !in left ==> exists i :: 0 <= i < |tickets| && tickets[i].id == t
      {
        var t :| t in left;
        ghost var before := tickets;
        tickets := tickets + [BoardTicket(t, labels(t), board[t])];
        assert tickets[|before|].id == t;
        forall u | u in board && u !in left ensures exists i :: 0 <= i < |tickets| && tickets[i].id == u {
          var i :| 0 <= i < |before| && before[i].id == u;
          assert tickets[i].id == u;
        }
        left := left - {t};
      }
    }

    // Nobody waits on a job that nothing will report; without a collector nobody is
    // parked at all.
    ghost predicate Safe(b: Columns, v: View)
    {
      Parked(b, v, Outstanding(v)) && (hasCollector || NoneParked(b))
    }

    lemma StillSafe(b: Columns, v: View, v': View)
      requires Safe(b, v) && StillOpen(v, v')
      ensures Safe(b, v')
    {
      forall t | t in b && b[t] == RunningUnattended ensures Held(v', Outstanding(v'), t) {
        assert Held(v, Outstanding(v), t);
      }
    }

    method PollOnce(labels: TicketId -> set<Label>, answers: Answers) returns (ghost turn: Turn, ghost record: Record)
      requires Valid()
      modifies this`board, this`peak, jobs
      ensures Valid() && old(jobs.history) <= jobs.history && turn.ByTick? && record.Ticked?
      ensures Follows(limit, queue, old(board), board, turn) && OpenWas(jobs.start, turn, jobs.history)
      ensures peak <= old(peak) || peak <= limit
      ensures WasSeen(jobs.start, record.was, jobs.history) && record.was == old(jobs.Seen())
      ensures Safe(old(board), record.was) && Calm(Poll(labels, answers), record, old(board), board, jobs.Seen()) ==>
                Safe(board, jobs.Seen())
      ensures Carried(Poll(labels, answers), record, old(board), board) && record.swept <= record.gate <= jobs.history
    {
      ghost var before, was, b0 := jobs.history, jobs.Seen(), board;
      assert was == SeenAt(jobs.start, before);
      var tickets := OpenTicketsNow(labels);
      ghost var out, attempted, swept, gate, halted;
      var r;
      r, out, attempted, swept, gate, halted := Tick(tickets, answers);
      ghost var open := OpenTickets(was) + OpenTickets(SeenAt(jobs.start, swept));
      turn, record := ByTick(attempted, TicketsOf(out) + LostIn(r), open), Ticked(was, r, tickets, out, attempted, swept, gate);
      assert OpenMeanwhile(jobs.start, was, open, before, gate);
      MomentsOfATick(jobs.start, before, was, open, gate, jobs.history, turn);
      if !hasCollector && NoneParked(b0) {
        NeverParked(b0, board, out, LostIn(r), attempted, answers);
      }
    }

    lemma NeverParked(b: Columns, b': Columns, out: seq<Finished>, lost: set<TicketId>, attempted: set<TicketId>, a: Answers)
      requires !hasCollector && NoneParked(b) && out == [] && Placement(b, b', out, lost, attempted, a)
      ensures NoneParked(b')
    {
    }

    method OthersGoOn(ghost b: Columns)
      requires Valid()
      modifies jobs
      ensures Valid() && old(jobs.history) <= jobs.history
      ensures Safe(b, old(jobs.Seen())) ==> Safe(b, jobs.Seen())
    {
      ghost var before := jobs.Seen();
      jobs.OthersSubmit();
      if Safe(b, before) {
        StillSafe(b, before, jobs.Seen());
      }
    }

    method LetPeople(change: Columns -> Columns)
      requires Valid() && ByHand(change)
      modifies this`board
      ensures Valid() && HumanMove(old(board), board) && board == change(old(board))
      ensures Safe(old(board), jobs.Seen()) && ParksNobody(old(board), board) ==> Safe(board, jobs.Seen())
    {
      assert HumanMove(board, change(board));
      PeopleMove(change(board));
    }

    // The other processes go on, and then it is people's turn or the runner's.
    method Run(e: Errand) returns (ghost turn: Turn, ghost record: Record)
      requires Valid() && (e.Rearrange? ==> ByHand(e.change))
      modifies this`board, this`peak, jobs
      ensures Valid() && old(jobs.history) <= jobs.history
      ensures Follows(limit, queue, old(board), board, turn) && (turn.ByPeople? <==> e.Rearrange?)
      ensures OpenWas(jobs.start, turn, jobs.history)
      ensures peak <= old(peak) || peak <= limit
      ensures Carried(e, record, old(board), board) && Happened(jobs.start, record, jobs.history)
      ensures record.Rearranged? <==> e.Rearrange?
      ensures Safe(old(board), old(jobs.Seen())) && Calm(e, record, old(board), board, jobs.Seen()) ==> Safe(board, jobs.Seen())
    {
      OthersGoOn(board);
      match e {
        case Rearrange(change) =>
          LetPeople(change);
          turn, record := ByPeople, Rearranged;
        case Poll(labels, answers) =>
          turn, record := PollOnce(labels, answers);
      }
    }

    // Poll for as long as the process lives, with people at the board and other
    // processes in between. Work in flight never exceeds the limit, not even between
    // two writes of one tick; with what waits on people it stays below the two
    // limits together exactly when no tick finds too much finished or lost; and as
    // long as people park nobody, sweeps end, answers hold still within a tick and
    // detached handles are the tickets' own, every parked ticket has an open job.
    method Operate(errands: seq<Errand>) returns (ghost d: Diary)
      requires Valid() && Committed(board) == {} && peak == 0
      requires forall i :: 0 <= i < |errands| && errands[i].Rearrange? ==> ByHand(errands[i].change)
      modifies this`board, this`peak, jobs
      ensures Valid() && BoardHistory(limit, queue, d.boards, d.turns) && |d.turns| == |errands|
      ensures d.boards[0] == old(board) && d.boards[|errands|] == board
      ensures forall i :: 0 <= i < |errands| ==> (d.turns[i].ByPeople? <==> errands[i].Rearrange?)
      ensures forall i :: 0 <= i < |errands| ==> OpenWas(jobs.start, d.turns[i], jobs.history)
      ensures peak <= AtLeastZero(limit)
      ensures forall k :: 0 <= k < |d.boards| ==> |InFlight(d.boards[k])| <= AtLeastZero(limit)
      ensures limit >= 0 && queue.Some? && PeopleAddNothing(d.boards, d.turns) ==>
                && (StaysBelow(d.boards, queue.value + limit) <==> AllMovesFit(d.boards, d.turns, queue.value + limit - 1))
                && (AllJobsOnBoard(d.boards, d.turns) ==> StaysBelow(d.boards, queue.value + limit))
      ensures AllCarried(d.boards, errands, d.records, |errands|)
      ensures Witnessed(jobs.start, errands, d.views, d.records, jobs.history) && d.views[|errands|] == jobs.Seen()
      ensures forall k :: 0 <= k < |d.boards| && CalmUntil(d.boards, d.views, errands, d.records, k) ==>
                Parked(d.boards[k], d.views[k], Outstanding(d.views[k]))
    {
      d := Diary([board], [], [jobs.Seen()], []);
      NothingYet(board, errands, jobs.history);
      for i := 0 to |errands|
        invariant Valid() && Lived(d, errands, i, jobs.history) && AllCarried(d.boards, errands, d.records, i)
        invariant d.boards[0] == old(board) && d.boards[i] == board && d.views[i] == jobs.Seen() && peak <= AtLeastZero(limit)
      {
        ghost var before := jobs.history;
        ghost var turn, record := Run(errands[i]);
        OneMoreCarried(d.boards, errands, d.records, i, board, record);
        OneMoreErrand(d, errands, i, before, board, turn, jobs.Seen(), record, jobs.history);
        d := d.Then(board, turn, jobs.Seen(), record);
      }
      ConcludeRun(d, errands, jobs.history);
    }

    // People did what they meant to, and a tick all that it is to do.
    ghost predicate Carried(e: Errand, record: Record, b: Columns, b': Columns)
    {
      match record
      case Rearranged => e.Rearrange? && b' == e.change(b)
      case Ticked(was, r, tickets, out, attempted, swept, gate) =>
        && e.Poll? && Snapshot(b, tickets) && Labelled(e.labels, tickets)
        && Placement(b, b', out, LostIn(r), attempted, e.answers)
        && HandsBack(was, out, if hasCollector then ReadyAmong(Outstanding(was), e.answers.atCollect) else {}, e.answers.atCollect)
        && LostAt(jobs.start, swept, if r.None? then None else Some(r.value.lost), e.answers)
        && if r.None? then attempted == {}
           else Summary(out, attempted, e.answers, r.value) &&
                AllDecided(tickets, e.answers, r.value.lost, Breaker(After(jobs.start, gate).log.rows).Some?, attempted, r.value.skipped)
    }

    ghost predicate AllCarried(boards: seq<Columns>, errands: seq<Errand>, records: seq<Record>, n: nat)
    {
      && |boards| == n + 1 && |records| == n <= |errands|
      && forall i :: 0 <= i < n ==> Carried(errands[i], records[i], boards[i], boards[i + 1])
    }

    lemma OneMoreCarried(boards: seq<Columns>, errands: seq<Errand>, records: seq<Record>, n: nat, b': Columns, record: Record)
      requires AllCarried(boards, errands, records, n) && n < |errands| && Carried(errands[n], record, boards[n], b')
      ensures AllCarried(boards + [b'], errands, records + [record], n + 1)
    {
    }

    // What the first n errands leave behind.
    ghost predicate Lived(d: Diary, errands: seq<Errand>, n: nat, history: seq<Action>)
    {
      && n <= |errands| && Story(d.boards, d.turns, errands, n, history)
      && NobodyStranded(d.boards, d.views, errands, d.records, n)
      && Witnessed(jobs.start, errands[..n], d.views, d.records, history)
    }

    lemma NothingYet(b: Columns, errands: seq<Errand>, history: seq<Action>)
      requires Committed(b) == {}
      ensures Lived(Diary([b], [], [SeenAt(jobs.start, history)], []), errands, 0, history)
    {
      forall t | t in b ensures b[t] != RunningUnattended {
        assert t !in InFlight(b);
      }
      Watched(jobs.start, history);
    }

    lemma OneMoreErrand(d: Diary, errands: seq<Errand>, n: nat, before: seq<Action>, b': Columns, turn: Turn, v': View,
                        record: Record, history: seq<Action>)
      requires Lived(d, errands, n, before) && n < |errands| && before <= history
      requires Follows(limit, queue, d.boards[n], b', turn) && (turn.ByPeople? <==> errands[n].Rearrange?)
      requires OpenWas(jobs.start, turn, history) && v' == SeenAt(jobs.start, history)
      requires (record.Rearranged? <==> errands[n].Rearrange?) && Happened(jobs.start, record, history)
      requires Safe(d.boards[n], d.views[n]) && Calm(errands[n], record, d.boards[n], b', v') ==> Safe(b', v')
      ensures var d' := d.Then(b', turn, v', record);
              Lived(d', errands, n + 1, history) && d'.boards[0] == d.boards[0] && d'.boards[n + 1] == b' && d'.views[n + 1] == v'
    {
      OneMoreChapter(d.boards, d.turns, errands, n, before, b', turn, history);
      OneMoreCalm(d.boards, d.views, errands, d.records, n, b', v', record);
      OneMoreWitness(jobs.start, errands, d.views, d.records, n, before, v', record, history);
    }

    // As far as everything stayed calm, nobody waits on a closed job.
    ghost predicate NobodyStranded(boards: seq<Columns>, views: seq<View>, errands: seq<Errand>, records: seq<Record>, n: nat)
    {
      && |boards| == |views| == n + 1 && |records| == n <= |errands|
      && forall k :: 0 <= k <= n && CalmUntil(boards, views, errands, records, k) ==> Safe(boards[k], views[k])
    }

    lemma OneMoreCalm(boards: seq<Columns>, views: seq<View>, errands: seq<Errand>, records: seq<Record>, n: nat,
                      b': Columns, v': View, record: Record)
      requires NobodyStranded(boards, views, errands, records, n) && n < |errands|
      requires Safe(boards[n], views[n]) && Calm(errands[n], record, boards[n], b', v') ==> Safe(b', v')
      ensures NobodyStranded(boards + [b'], views + [v'], errands, records + [record], n + 1)
    {
      var bs, vs, rs := boards + [b'], views + [v'], records + [record];
      forall k | 0 <= k <= n + 1 && CalmUntil(bs, vs, errands, rs, k) ensures Safe(bs[k], vs[k]) {
        CalmBefore(boards, views, errands, records, n, b', v', record, if k <= n then k else n);
        if k == n + 1 {
          assert Calm(errands[n], rs[n], bs[n], bs[n + 1], vs[n + 1]);
        }
      }
    }

    // The first n errands have been run.
    ghost predicate Story(boards: seq<Columns>, turns: seq<Turn>, errands: seq<Errand>, n: nat, history: seq<Action>)
    {
      && BoardHistory(limit, queue, boards, turns) && |turns| == n <= |errands|
      && (forall j :: 0 <= j < n ==> (turns[j].ByPeople? <==> errands[j].Rearrange?))
      && (forall j :: 0 <= j < n ==> OpenWas(jobs.start, turns[j], history))
    }

    lemma OneMoreChapter(boards: seq<Columns>, turns: seq<Turn>, errands: seq<Errand>, n: nat, before: seq<Action>,
                         b': Columns, turn: Turn, history: seq<Action>)
      requires Story(boards, turns, errands, n, before) && n < |errands| && before <= history
      requires Follows(limit, queue, boards[n], b', turn) && (turn.ByPeople? <==> errands[n].Rearrange?)
      requires OpenWas(jobs.start, turn, history)
      ensures Story(boards + [b'], turns + [turn], errands, n + 1, history)
    {
      OneMoreTurn(limit, queue, boards, turns, b', turn);
      OpenStillWas(jobs.start, turns, before, history);
    }

    lemma ConcludeRun(d: Diary, errands: seq<Errand>, history: seq<Action>)
      requires Lived(d, errands, |errands|, history) && (queue.Some? ==> queue.value >= 1)
      ensures Witnessed(jobs.start, errands, d.views, d.records, history)
      ensures forall k :: 0 <= k < |d.boards| && CalmUntil(d.boards, d.views, errands, d.records, k) ==>
                Parked(d.boards[k], d.views[k], Outstanding(d.views[k]))
      ensures forall k :: 0 <= k < |d.boards| ==> |InFlight(d.boards[k])| <= AtLeastZero(limit)
      ensures limit >= 0 && queue.Some? && PeopleAddNothing(d.boards, d.turns) ==>
                && (StaysBelow(d.boards, queue.value + limit) <==> AllMovesFit(d.boards, d.turns, queue.value + limit - 1))
                && (AllJobsOnBoard(d.boards, d.turns) ==> StaysBelow(d.boards, queue.value + limit))
    {
      assert errands[..|errands|] == errands;
      forall k | 0 <= k < |d.boards| ensures |InFlight(d.boards[k])| <= AtLeastZero(limit) {
        InFlightBound(limit, queue, d.boards, d.turns, k);
      }
      if limit >= 0 && queue.Some? && PeopleAddNothing(d.boards, d.turns) {
        TotalBoundExactlyWhen(limit, queue.value, d.boards, d.turns);
      }
    }

    // What is taken up already leaves room for the tickets that come to people.
    ghost predicate Fits(b: Columns, moved: set<TicketId>)
      requires queue.Some?
    {
      |Committed(b) + moved| < queue.value + limit
    }

    // A budget is blamed only when the tick used all of it.
    ghost predicate Exhausted(b: Columns, n: nat, moved: nat, skipped: map<TicketId, Skip>)
    {
      forall t :: t in skipped ==>
        && (skipped[t].NoConcurrency? ==> |InFlight(b)| + n >= limit)
        && (skipped[t].ReviewQueueFull? ==>
              queue.Some? && |Waiting(b)| + moved + n >= queue.value && |InFlight(b)| + n < limit)
    }

    // The summary of a tick against what it did.
    ghost predicate Accounted(tickets: seq<BoardTicket>, a: Answers, halted: bool, attempted: set<TicketId>, before: TickResult, r: TickResult)
    {
      Reported(attempted, a.session, before, r) && Decided(tickets, |tickets|, a, r.lost, halted, attempted, r.skipped)
    }

    lemma NothingTried(b: Columns, b1: Columns, brought: set<TicketId>, a: Answers)
      requires Handed(b, b1, brought + {})
      ensures TickEffect(limit, queue, b, b1, {}, brought + {})
    {
      HandedThenTakenUp(limit, queue, b, b1, b1, {}, brought + {});
    }

    lemma DispatchingStrandsNobody(b: Columns, v: View, v': View, among: set<Handle>, attempted: set<TicketId>, before: TickResult,
                                   r: TickResult, a: Answers)
      requires Parked(b, v, among) && StillOpen(v, v') && Reported(attempted, a.session, before, r) && Issued(r.submitted, v')
      ensures Parked(Placed(b, attempted, a.session, required, hasCollector), v', Outstanding(v'))
    {
      var b' := Placed(b, attempted, a.session, required, hasCollector);
      forall t | t in b' && b'[t] == RunningUnattended ensures Held(v', Outstanding(v'), t) {
        if t in attempted {
          SessionOutcomes(a.session(t), required, hasCollector);
          assert t in r.submitted;
        } else {
          assert Held(v, among, t);
        }
      }
    }
  }

  // What an operator's process meets: people at the board, and polls.
  datatype Errand = Rearrange(change: Columns -> Columns) | Poll(labels: TicketId -> set<Label>, answers: Answers)

  ghost predicate ByHand(change: Columns -> Columns)
  {
    forall b :: HumanMove(b, change(b))
  }

  // What came of an errand: the view a tick began with, its summary and how it came to it.
  datatype Record =
    | Rearranged
    | Ticked(was: View, r: Option<TickResult>, tickets: seq<BoardTicket>, out: seq<Finished>, attempted: set<TicketId>,
             swept: seq<Action>, gate: seq<Action>)

  // The board and the log after each errand, and what became of each.
  datatype Diary = Diary(boards: seq<Columns>, turns: seq<Turn>, views: seq<View>, records: seq<Record>) {
    ghost function Then(b: Columns, turn: Turn, v: View, record: Record): Diary
    {
      Diary(boards + [b], turns + [turn], views + [v], records + [record])
    }
  }

  ghost predicate NoneParked(b: Columns)
  {
    forall t :: t in b ==> b[t] != RunningUnattended
  }

  ghost predicate ParksNobody(b: Columns, b': Columns)
  {
    forall t :: t in b' && b'[t] == RunningUnattended ==> t in b && b[t] == RunningUnattended
  }

  // People parked nobody; a tick ended, answers about open jobs did not change within
  // it, and the handles its sessions came back with name open jobs of their tickets.
  ghost predicate Calm(e: Errand, record: Record, b: Columns, b': Columns, v': View)
  {
    match record
    case Rearranged => ParksNobody(b, b')
    case Ticked(was, r, _, _, _, _, _) => e.Poll? && r.Some? && Steady(e.answers, Outstanding(was)) && Issued(r.value.submitted, v')
  }

  ghost predicate CalmUntil(boards: seq<Columns>, views: seq<View>, errands: seq<Errand>, records: seq<Record>, k: nat)
  {
    && k < |boards| && k < |views| && k <= |errands| && k <= |records|
    && forall i :: 0 <= i < k ==> Calm(errands[i], records[i], boards[i], boards[i + 1], views[i + 1])
  }

  lemma CalmBefore(boards: seq<Columns>, views: seq<View>, errands: seq<Errand>, records: seq<Record>, n: nat,
                   b': Columns, v': View, record: Record, k: nat)
    requires |boards| == |views| == n + 1 && |records| == n <= |errands| && k <= n
    requires forall i :: 0 <= i < k ==>
               Calm(errands[i], (records + [record])[i], (boards + [b'])[i], (boards + [b'])[i + 1], (views + [v'])[i + 1])
    ensures CalmUntil(boards, views, errands, records, k)
  {
    forall i | 0 <= i < k ensures Calm(errands[i], records[i], boards[i], boards[i + 1], views[i + 1]) {
      assert Calm(errands[i], (records + [record])[i], (boards + [b'])[i], (boards + [b'])[i + 1], (views + [v'])[i + 1]);
    }
  }

  // A view is what the log said at some moment.
  ghost predicate WasSeen(start: State, v: View, history: seq<Action>)
  {
    exists before :: before <= history && v == SeenAt(start, before)
  }

  lemma Watched(start: State, history: seq<Action>)
    ensures WasSeen(start, SeenAt(start, history), history)
  {
    assert history <= history;
  }

  lemma StillWasSeen(start: State, v: View, history: seq<Action>, later: seq<Action>)
    requires WasSeen(start, v, history) && history <= later
    ensures WasSeen(start, v, later)
  {
    var before :| before <= history && v == SeenAt(start, before);
    assert before <= later;
  }

  // The views are the log's own, after each errand and at the start of each tick.
  // The moments of a tick are moments of the history.
  ghost predicate Happened(start: State, record: Record, history: seq<Action>)
  {
    record.Ticked? ==> WasSeen(start, record.was, history) && record.swept <= record.gate <= history
  }

  ghost predicate Witnessed(start: State, errands: seq<Errand>, views: seq<View>, records: seq<Record>, history: seq<Action>)
  {
    && |views| == |errands| + 1 && |records| == |errands|
    && (forall i :: 0 <= i < |views| ==> WasSeen(start, views[i], history))
    && (forall i :: 0 <= i < |records| ==>
          && (records[i].Rearranged? <==> errands[i].Rearrange?)
          && Happened(start, records[i], history))
  }

  lemma OneMoreWitness(start: State, errands: seq<Errand>, views: seq<View>, records: seq<Record>, n: nat, before: seq<Action>,
                       v': View, record: Record, history: seq<Action>)
    requires n < |errands| && Witnessed(start, errands[..n], views, records, before)
    requires before <= history && v' == SeenAt(start, history)
    requires record.Rearranged? <==> errands[n].Rearrange?
    requires Happened(start, record, history)
    ensures Witnessed(start, errands[..n + 1], views + [v'], records + [record], history)
  {
    Watched(start, history);
    forall i | 0 <= i < |views| ensures WasSeen(start, views[i], history) {
      StillWasSeen(start, views[i], before, history);
    }
    forall i | 0 <= i < n ensures Happened(start, records[i], history) {
      if records[i].Ticked? {
        StillWasSeen(start, records[i].was, before, history);
      }
    }
    assert forall i :: 0 <= i < n ==> errands[..n][i] == errands[..n + 1][i];
  }

  // A tick's open tickets are those with an open job at two moments of a history.
  ghost predicate OpenWas(start: State, turn: Turn, history: seq<Action>)
  {
    turn.ByTick? ==>
      exists before, swept ::
        before <= swept <= history && turn.open == OpenTickets(SeenAt(start, before)) + OpenTickets(SeenAt(start, swept))
  }

  lemma MomentsOfATick(start: State, before: seq<Action>, was: View, open: set<TicketId>, gate: seq<Action>, history: seq<Action>, turn: Turn)
    requires OpenMeanwhile(start, was, open, before, gate) && was == SeenAt(start, before) && gate <= history
    requires turn.ByTick? && turn.open == open
    ensures OpenWas(start, turn, history)
  {
    var swept :| before <= swept <= gate && open == OpenTickets(was) + OpenTickets(SeenAt(start, swept));
    assert before <= swept <= history;
  }

  lemma OpenStillWas(start: State, turns: seq<Turn>, history: seq<Action>, later: seq<Action>)
    requires history <= later && forall j :: 0 <= j < |turns| ==> OpenWas(start, turns[j], history)
    ensures forall j :: 0 <= j < |turns| ==> OpenWas(start, turns[j], later)
  {
    forall j | 0 <= j < |turns| && turns[j].ByTick? ensures OpenWas(start, turns[j], later) {
      var before, swept :|
        before <= swept <= history && turns[j].open == OpenTickets(SeenAt(start, before)) + OpenTickets(SeenAt(start, swept));
      assert before <= swept <= later;
    }
  }

  // What a sweep that began at that moment had to ground: nobody, if it raised.
  ghost predicate LostAt(start: State, swept: seq<Action>, grounded: Option<set<TicketId>>, a: Answers)
  {
    var v, now := SeenAt(start, swept), After(start, swept).clock;
    && (grounded.None? <==> SweepRaises(v, now, a.atSweep))
    && (grounded.Some? ==> grounded.value == LossesAmong(v, now, Outstanding(v), a.atSweep).Values)
  }

  lemma OneMoreSuch(s: set<TicketId>, t: TicketId, such: TicketId -> bool)
    ensures (set u | u in s + {t} && such(u)) == (set u | u in s && such(u)) + if such(t) then {t} else {}
  {
  }

  // What a log said at some moment of its history.
  ghost function SeenAt(start: State, when: seq<Action>): View
  {
    Replay(After(start, when).log.rows)
  }

  ghost predicate OpenMeanwhile(start: State, was: View, open: set<TicketId>, before: seq<Action>, gate: seq<Action>)
  {
    exists swept :: before <= swept <= gate && open == OpenTickets(was) + OpenTickets(SeenAt(start, swept))
  }

  ghost function LostIn(r: Option<TickResult>): set<TicketId>
  {
    if r.Some? then r.value.lost else {}
  }

  // A handle a session came back with names an open job of that ticket.
  ghost predicate Issued(submitted: map<TicketId, Handle>, v: View)
  {
    forall t :: t in submitted ==> submitted[t] in Outstanding(v) && v.jobs[submitted[t]].ticket == t
  }

  // The summary mentions no ticket but those brought back and those grounded.
  ghost predicate Reports(r: TickResult, done: set<TicketId>, lost: set<TicketId>)
  {
    && r.dispatched == {} && r.submitted == map[] && r.skipped == map[]
    && r.collected + r.failed + r.refused == done && r.lost == lost
  }

  ghost predicate SweepRaises(v: View, now: real, w: World)
  {
    RaisingAmong(v, now, Outstanding(v), w) != {}
  }

  ghost function Grounded(b: Columns, tickets: set<TicketId>): Columns
  {
    map t | t in b.Keys + tickets :: if t in tickets then NeedsHuman else b[t]
  }

  lemma PlacedNothing(b: Columns, session: TicketId -> Session, required: set<string>, canDetach: bool)
    ensures Placed(b, {}, session, required, canDetach) == b
  {
  }

  lemma PlacedMore(b: Columns, attempted: set<TicketId>, session: TicketId -> Session, required: set<string>, canDetach: bool, t: TicketId)
    ensures Placed(b, attempted + {t}, session, required, canDetach) ==
            Placed(b, attempted, session, required, canDetach)[t := StateFor(OutcomeOfSession(session(t), required, canDetach))]
  {
  }

  lemma PlacedIsTakenUp(b: Columns, attempted: set<TicketId>, session: TicketId -> Session, required: set<string>, canDetach: bool)
    ensures TakenUp(b, Placed(b, attempted, session, required, canDetach), attempted)
  {
  }

  const NOTHING_YET: TickResult := TickResult({}, map[], {}, {}, map[], {}, {}, false)

  // A job reported done at the sweep was done, and readable, when jobs were collected.
  ghost predicate Steady(a: Answers, handles: set<Handle>)
  {
    forall h :: h in handles && a.atSweep.poll(h) == Some(RESOLVED) ==> Ready(a.atCollect, h)
  }

  lemma HandedThenGrounded(b: Columns, b1: Columns, done: set<TicketId>, grounded: set<TicketId>)
    requires Handed(b, b1, done)
    ensures Handed(b, Grounded(b1, grounded), done + grounded) && Handed(b1, Grounded(b1, grounded), grounded)
  {
  }

  lemma ParkedAmongMore(b: Columns, v: View, among: set<Handle>, more: set<Handle>)
    requires Parked(b, v, among) && among <= more
    ensures Parked(b, v, more)
  {
    forall t | t in b && b[t] == RunningUnattended ensures Held(v, more, t) {
      assert Held(v, among, t);
    }
  }
}
