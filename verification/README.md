# expfactory, modelled and verified in Dafny

The factory runs untrusted agents against a compute budget and lets none of them
decide whether its own work passed. This project models the parts that have to be
right for that to hold, and proves what they promise over every input, every run
and every interleaving the model admits.

**The job registry** (`RegistryLog`, `ReplayLaws`, `RegistryProtocol`, `RegistryTheorems`,
`RegistryInterference`, `JobRegistryClass`). Everything the registry answers is a fold
over an append-only log. `submit` reserves, calls the substrate, and binds, and a
process may die between any two of those steps. The protocol is a transition
system over the log, the clock, the admission lock's holder and two ghost facts:
which keys the substrate was called for and which it started. Its invariant is
inductive, because the replay itself guards almost nothing; `ReplayLaws` says what a
replay holds in terms of the rows alone. The class
`JobRegistry` has the methods with their loops; each change it makes is a step of
the protocol, and between any two of its accesses the other processes take
whatever steps the lock leaves them (`Others`, whose body does nothing and whose
contract is all that callers may rely on).

**The local substrate** (`LocalDisk`, `LocalSubstrate`) writes a key's marker before
it spawns, and tells a refusal that started nothing from an unknown outcome. The
disk, its torn writes and the processes are a second transition system. `Factory`
runs both halves in one process and proves that the local substrate is all that
the registry assumes of one.

**The runner** (`Board`, `RunnerTick`) collects finished jobs, sweeps for lost ones and
dispatches within two budgets, on top of the registry's own methods. `Operate` runs
tick after tick with people at the board in between.

**The verdict ledger** (`Metrics`, `Gates`, `Prereg`, `VerdictLedger`, `Verifier`,
`Lineage`, `Improvement`) judges candidates by gates, G-07 and G-08 among them, and
`Lineage` draws from one ledger what holds of whole lineages of promotions.

**Smaller cores**: `Attestation` (G-10 against the registry's log), `PageWalk` and
`Attribution` (all-or-nothing reads and who granted dispatch), `SessionFolds` (splits by
session, and G-09), `LadderFeedback` (how much a score discloses). `Prelude`, `Sums`,
`Sorting` and `NameOrder` hold what the others share.

Readings worth knowing:

- Money, time and metrics are reals. `Number` has one value for everything the
  validators refuse: NaN, infinities, booleans and text alike.
- An append that dies in mid-row leaves a torn last line, and the next row is
  glued to it. Both then read as one unreadable line. Any writer can leave one,
  also while a submission is between its checks and its reservation; a reservation
  glued to it is swallowed, and the theorems say of each run which ones were.
- The two limits of the runner are sure to bound work in flight plus what waits on
  people only while no ticket with an open job has been moved back out of both: its
  job's end puts the ticket in front of people whatever column it is in.
- `sweep` closes an overdue job that turns out to be finished without naming its
  ticket. The runner collects first for that reason, and that is enough when a
  poll does not change between the two calls; `Tick` says so.
- `sweep` and the breaker are not guarded in the runner's tick as `collect_finished`
  is: a job that makes `sweep` raise ends the tick, and losses recorded before it
  in the same sweep ground no ticket, then or later.
- Eligibility asks about the needs-human label and not about the Needs Human
  state. A tracker that writes states as labels makes the two one; on one that
  keeps them apart, a ticket the runner grounded is dispatchable again.
- The comment on the preregistration gate counts seven rules; the code applies
  eight, in the order 7, 1, 2, 5, 3, 6, 8, 4.
- The noise band of the seed-variance gate is compared squared, so that no root
  is taken.
- Hashes are taken to be injective and fresh ids to be new.

## Model

| member | source | states |
|---|---|---|
| RegistryLog.Conservation | src/expfactory/registry.py:1046-1126 | The total that admission computes from jobs with a handle plus charged reservations without one is the single sum over every intent not released, plus jobs older than reservations: nothing twice, nothing dropped. |
| RegistryLog.BreakerWalkMeaning | src/expfactory/registry.py:982-1025 | Walking the log backwards finds the breaker closed exactly when every opening row has a reset somewhere after it. |
| RegistryLog.BreakerMeans | src/expfactory/registry.py:982-1025 | The reason given is about unaccounted keys exactly when there are any, else the newest opening row not followed by a reset, and none exactly when the breaker is closed. |
| RegistryLog.DamageIsAbsence | src/expfactory/registry.py:733-801 | The damage count is zero exactly when the log holds no unreadable line. |
| RegistryLog.DamageCounts | src/expfactory/registry.py:733-801 | The damage count is the number of unreadable lines in the log. |
| ReplayLaws.HeldMeans | src/expfactory/registry.py:803-875 | What a replay holds under a key, named over the rows: there is one exactly when some row reserves it, its ticket, money, time and command are the last such row's, and its state and handle are decided by the last row since that speaks of the key. |
| ReplayLaws.JobsMean | src/expfactory/registry.py:803-875 | What a replay holds under a handle, named over the rows: there is one exactly when a row introduces it, the last such row gives ticket, price, time and deadline, whether it is open and how it completed are the last rows' that speak of it. |
| RegistryProtocol.Keep | src/expfactory/registry.py:1180-1291 | Every step of every process keeps the whole invariant, be it a crash or a row torn by any writer at any moment: the two views cohere, at most one reservation is unaccounted for, every opening row is answered before the next reservation, every key the substrate was called for is held or the log shows damage, what it started is charged where it is held, and every day is within the cap. |
| RegistryProtocol.WindowArgument | src/expfactory/registry.py:1056-1124 | A day that a new reservation falls in charges no more than the open-ended window the admission check summed, although the check runs at one instant only. |
| RegistryProtocol.ChargesAfter | src/expfactory/registry.py:803-875 | For any window, only a reservation raises the total and only a release lowers it; binding moves a charge from one view to the other. |
| RegistryTheorems.NoInvisibleJob | src/expfactory/registry.py:1260-1291 | In every run, wherever processes die, a key the substrate started a job for is read back exactly when its reservation was not appended to a torn line; it then has its row in the log, never replays as released, and is bound to a job that mirrors it, or unaccounted for, or abandoned by a row a human wrote. Otherwise the log shows damage. |
| RegistryTheorems.CalledAtMostOnce | src/expfactory/registry.py:1219-1227 | In every run the substrate is called at most once per key, and has started nothing it was not called for. |
| RegistryTheorems.ReservationHistory | src/expfactory/registry.py:66-71 | Over any continuation of a run a key stays, its ticket, price, deadline, command and handle stay, its state only moves along the declared transitions, and at most one reservation is unaccounted for. |
| RegistryTheorems.SlidingWindowCap | src/expfactory/registry.py:1232-1247 | In every run and for every instant, what was reserved in the day ending then and not released is within the daily cap, whatever older rows the log began with; so is that with the older jobs of the day, if the day holds a reservation or the log no older jobs; and each estimate is within the per-job cap. |
| RegistryTheorems.SpendCountsEachIntentOnce | src/expfactory/registry.py:1067-1124 | What `submit` compares with the daily cap is, in every run, the sum over intents, each once. |
| RegistryTheorems.BreakerTraceLaw | src/expfactory/registry.py:982-1044 | In every log a run writes, a reset lies between any lost, tripped or orphaned row and a later reservation, and after an orphaned row also a human's abandonment of that key. |
| RegistryTheorems.DamageIsFinal | src/expfactory/registry.py:1180-1197 | Once the log holds an unreadable line and the lock is free, no further submission ever reaches the substrate. |
| RegistryTheorems.BreakerCanAlwaysBeClosed | src/expfactory/registry.py:1502-1536 | From every state a run reaches, at most five steps, each a crash, an escalation or a human's row, close the breaker: it is not a jam. |
| RegistryTheorems.TornTailHidesAJob | src/expfactory/registry.py:673-692 | A run in which that happens: another writer dies in mid-row after a submission was cleared, and its job is started with no reservation to show for it. |
| RegistryTheorems.BindingKeepsTheTotalExactlyWhen | src/expfactory/registry.py:855-867 | A binding keeps the total of a window exactly when its handle named no job, or one the window charges nothing for; otherwise the total falls by that job's charge. |
| RegistryTheorems.SharedHandleDropsACharge | src/expfactory/registry.py:1067-1124 | Where conservation stops, on any log: a substrate that hands out a handle again makes what admission computes fall by the charge of the job it named before, though every intent is still charged for. |
| RegistryInterference.LockedOut | src/expfactory/registry.py:694-731 | While one process holds the admission lock, whatever the others may append leaves everything it has looked at as it was. |
| RegistryInterference.OneCollector | src/expfactory/registry.py:1347-1448 | While one process collects, other submitters neither close nor alter a job it has read as open, nor reopen a closed one. |
| JobRegistryClass.JobRegistry.Append | src/expfactory/registry.py:673-692 | Appending a row is the protocol step it was asked for; glued to a torn last line it is lost with that line. |
| JobRegistryClass.JobRegistry.Events | src/expfactory/registry.py:733-795 | Returns the readable rows in order and leaves the number of unreadable ones in the damage count. |
| JobRegistryClass.JobRegistry.ReplayLog | src/expfactory/registry.py:803-875 | The loop over the readable rows computes the replay of the whole log. |
| JobRegistryClass.JobRegistry.BreakerReason | src/expfactory/registry.py:982-1025 | Reports unaccounted reservations first, else exactly the newest opening row that no reset follows, by its kind and what it names, else nothing. |
| JobRegistryClass.JobRegistry.SpendTodayUsd | src/expfactory/registry.py:1046-1126 | Returns the two-view total of the trailing day, or refuses if the log is damaged or a row in it cannot be placed or priced. |
| JobRegistryClass.AcceptedPricesKeepTheDayCountable | src/expfactory/registry.py:262-277 | A price is accepted exactly when the day still adds up with a reservation at that price in it, and an accepted one takes nothing off the day's total. |
| JobRegistryClass.AcceptedDeadlinesLieAhead | src/expfactory/registry.py:280-295 | A duration is accepted exactly when no sweep at the moment of submission, whatever the substrate answers, would raise on the job or find it overdue; the job is then overdue exactly from that many seconds on. |
| JobRegistryClass.JobRegistry.EscalateOrphans | src/expfactory/registry.py:1450-1465 | Marks every unbound reservation orphaned; afterwards each is unaccounted for, which is what holds the breaker open. |
| JobRegistryClass.JobRegistry.Price | src/expfactory/registry.py:1229-1247 | The answer for every quote: refused as unusable, above the per-job cap, unpriceable day, above the daily cap, or cleared at that price; only the last changes the protocol state. |
| JobRegistryClass.JobRegistry.ReserveRow | src/expfactory/registry.py:1249-1275 | After it the log reads back a pending reservation with the ticket, time, deadline and price of this submission, or shows the damage of the torn line that swallowed it. |
| JobRegistryClass.JobRegistry.CallAndBind | src/expfactory/registry.py:1277-1291 | One substrate call. A handle is bound to the key; a decline releases it, and nothing was started; any other failure leaves it as it was, pending and charged or swallowed. |
| JobRegistryClass.JobRegistry.IdempotentResult | src/expfactory/registry.py:1293-1314 | A used key answers with its own job when cleanly bound and is refused as a conflict otherwise. |
| JobRegistryClass.JobRegistry.Submit | src/expfactory/registry.py:1128-1291 | Every answer of `submit`, with other processes acting between any two steps, and the price and deadline are of the caller's duration, or of the default where there is none: an unusable duration changes nothing; otherwise the answer is the one of the checks at the three moments they look at the log, without a call, or exactly one call for a key not held before; then what is returned, command and deadline included, is what a fresh process reads back, a decline means the key was never started, and an unknown outcome leaves the reservation pending and charged. |
| JobRegistryClass.JobRegistry.ResolveJob | src/expfactory/registry.py:1316-1345 | For any handle, writes the artifact and completion the substrate reports, or nothing at all if either call raises. |
| JobRegistryClass.JobRegistry.CollectFinished | src/expfactory/registry.py:1347-1402 | Closes exactly the open jobs reported done and readable and hands each back once with its ticket and artifact; raises only if every finished one failed and none was collected. |
| JobRegistryClass.JobRegistry.Sweep | src/expfactory/registry.py:1404-1448 | Names exactly the overdue jobs not reported done and marks them lost; closes overdue finished ones without naming them; stops at the first job that raises. |
| JobRegistryClass.JobRegistry.MarkLost | src/expfactory/registry.py:1440-1446 | Records a loss under the admission lock and changes no other open job. |
| JobRegistryClass.JobRegistry.TripBreaker | src/expfactory/registry.py:1027-1039 | Afterwards the breaker is open. |
| JobRegistryClass.JobRegistry.ResetBreakerBy | src/expfactory/registry.py:1041-1044 | Afterwards the breaker is closed unless something is unaccounted for, which then still holds it open. |
| JobRegistryClass.JobRegistry.AbandonReservation | src/expfactory/registry.py:1502-1536 | Accepts exactly an orphaned key, and leaves its money charged. |
| JobRegistryClass.JobRegistry.Reconcile | src/expfactory/registry.py:1467-1500 | After startup no reservation is pending that is not listed as orphaned, and the finished jobs listed are exactly those reported done. |
| Attestation.GateAttestedRun | src/expfactory/gates_v1.py:433-551 | G-10 passes exactly when no source is configured, or the cited job is in the log and its ticket, completion and command agree; it reports exactly the problems there are, and names a field as unchecked exactly when the log has no value for it. |
| Attestation.JobRows | src/expfactory/registry.py:833-875 | In any log, a replayed job that knows its command was reserved under some key and bound later, and its completion was written after that. |
| Attestation.AttestedMeansLogOrder | src/expfactory/gates_v1.py:469-551 | G-10 with a ticket and nothing unchecked means the log holds, in order, a reservation for that ticket with the command, its binding to the cited handle, and a resolution with exit code 0, that command and the attested digest. |
| LocalDisk.RunsOncePerKey | src/expfactory/local_substrate.py:357-469 | Over all interleavings of submissions, deaths and jobs, no key and no handle is spawned twice. |
| LocalDisk.DeclinedNeverStarted | src/expfactory/local_substrate.py:357-420 | A key without a marker has never been spawned, so a decline made there is true. |
| LocalDisk.CapacityHolds | src/expfactory/local_substrate.py:304-324 | With whole pid writes and serial submissions, payloads still unfinished never exceed the limit, across deaths anywhere else. |
| LocalDisk.LimitPassedExactlyWhen | src/expfactory/local_substrate.py:304-324 | The next admission can put more payloads to work than the limit exactly when fewer than the limit are counted while at least that many are unfinished, and that takes an unfinished one whose metadata cannot be read. |
| LocalDisk.TornPidFreesASlot | src/expfactory/local_substrate.py:466-486 | Where the limit stops, from an empty disk: a submission that dies while the pid is written makes its live job read as lost, and a second one is started beside it. |
| LocalDisk.LostMeansNoRecordEver | src/expfactory/local_substrate.py:474-503 | With the job writing its record and exiting at any point between the four reads, a poll that answers LOST means there is no completion record, then or later. |
| LocalDisk.StateMeans | src/expfactory/local_substrate.py:474-503 | What each state says about the files and the process table: resolved with a record, submitted without one, with metadata, and with no pid yet or a live process, else lost. |
| LocalDisk.ResolvedIsPermanent | src/expfactory/local_substrate.py:474-503 | A job that polls RESOLVED does so for ever. |
| LocalDisk.DeadSubmissionHoldsItsSlot | src/expfactory/local_substrate.py:487-492 | A submission that died between metadata and pid counts as running for ever. |
| LocalSubstrate.LocalGpuSubstrate.Poll | src/expfactory/local_substrate.py:471-503 | RESOLVED only with a record on disk; LOST only for a missing directory, for metadata that cannot be read, or without a record and with the process gone; SUBMITTED only with readable metadata and either no pid yet or a process of that pid; a job with a record answers RESOLVED; with jobs running on between the reads. |
| LocalSubstrate.LocalGpuSubstrate.RunningHandles | src/expfactory/local_substrate.py:304-310 | Exactly the directories whose state reads as submitted. |
| LocalSubstrate.LocalGpuSubstrate.Preflight | src/expfactory/local_substrate.py:312-338 | Admits exactly when a slot is free, a device exists if one is asked for, and the largest has the memory left after the reserve. |
| LocalSubstrate.LocalGpuSubstrate.Submit | src/expfactory/local_substrate.py:342-469 | A marked key answers with its handle and starts nothing; a decline starts nothing, leaves the disk as it was and means a submission without a marker that must be refused; success makes its directory, metadata, marker, process and pid, in that order and each once, and spawns after the marker if there is a key; capacity is kept. |
| Factory.MoveIsARegistryStep | src/expfactory/registry.py:585-625 | What the registry assumes of a substrate is proved of the local one: its handles are new, it never declines a key it started, and it is never asked twice. |
| Factory.RefinesTheRegistry | src/expfactory/registry.py:1277-1291 | Every run of registry and local substrate together is a run of the registry protocol, with the same reservations swallowed. |
| Factory.OneProcessPerKeyAllAccounted | src/expfactory/local_substrate.py:357-469 | Over every joint run, no key has two processes, and every process's key is charged and bound to that very handle, unaccounted for, or abandoned by a human, except exactly those whose reservation went to a torn line, which no view shows. |
| Board.InFlightBound | src/expfactory/runner.py:543-546 | From a board with nothing taken up, over any sequence of ticks and of whatever people do short of starting work, and with or without a review limit, work in flight stays within max_concurrent. |
| Board.TickFitsExactlyWhen | src/expfactory/runner.py:543-599 | A tick leaves at most max_awaiting_human + max_concurrent - 1 tickets in flight or waiting exactly when those there before it, with the ones whose jobs it finds finished or lost, are no more: what it dispatches itself always fits. |
| Board.EveryTickFitsExactlyWhen | src/expfactory/runner.py:543-599 | Before a tick: it fits whichever open jobs it finds finished or lost exactly when the tickets taken up and those with an open job together are no more than that. |
| Board.TotalBoundExactlyWhen | src/expfactory/runner.py:586-599 | Over any sequence of ticks and of people's moves that take up nothing, in flight plus waiting stays below the two limits together for good exactly when every tick fits; and it does if every open job's ticket is in flight or waiting when a tick begins. |
| Board.AParkedTicketMovedOut | src/expfactory/runner.py:641-666 | Where that bound fails: with room for one of each, a person moves a parked ticket back to Todo, a second ticket goes to review, the first one's job finishes, and two wait. |
| RunnerTick.Runner.Eligibility | src/expfactory/runner.py:487-511 | A ticket is eligible exactly when it has both labels and no needs-human label, is in Todo or Needs Human, and a listed human applied the label. |
| RunnerTick.Runner.ComesBackExactlyWhen | src/expfactory/runner.py:497-503 | Of the tickets the runner has put somewhere, it may pick up again exactly those in Needs Human on a tracker that keeps states apart from labels. |
| RunnerTick.Runner.CollectFinished | src/expfactory/runner.py:617-667 | Moves exactly the tickets of jobs found finished: to review exactly on evidence whose verdict shows every required gate and to a person on everything else, the last harvest of a ticket deciding; and enters each as collected, failed or refused by what came of it; a registry that cannot answer is reported instead. |
| RunnerTick.Runner.ReconcileLost | src/expfactory/runner.py:669-693 | Grounds exactly the tickets of the jobs the sweep lost; if the sweep raises it grounds none, even those whose loss is already recorded. |
| RunnerTick.Runner.Dispatch | src/expfactory/runner.py:695-787 | A dispatched ticket ends in review exactly when its session returned with a verdict showing every required gate, running unattended exactly when it submitted a job and there is a collector, and in front of a person otherwise; the summary has it as dispatched, submitted with the handle, failed or refused accordingly. |
| RunnerTick.SessionOutcomes | src/expfactory/runner.py:789-840 | Where each way a session can go puts its ticket, and how the summary has it. |
| RunnerTick.HarvestOutcomes | src/expfactory/runner.py:617-667 | The same for what a finished job brought back. |
| RunnerTick.Runner.Budgets | src/expfactory/runner.py:543-599 | What is left of the concurrency limit and of the review queue, counting tickets moved since the list was read. |
| RunnerTick.Runner.DispatchAll | src/expfactory/runner.py:552-584 | Every listed ticket is attempted or skipped. Attempted means eligible, not grounded in this tick, and past a closed breaker; a skipped one has the first thing in its way for its reason, the breaker and grounding only when it was eligible; neither budget is overdrawn, and neither is blamed while some of it is left or anything else is in the way. |
| RunnerTick.Runner.Tick | src/expfactory/runner.py:518-584 | One tick: where every ticket ends, by what its session or harvest was; anything attempted only while the log, after the reads that precede dispatch, shows a closed breaker, never a ticket it just grounded, and only eligible ones; the reason of every ticket passed over; both budgets kept and used up before they are blamed; work in flight within the limit even between two writes; the total within both limits exactly when the moved tickets left room; and no parked ticket left without an open job if it had one, answers do not change within the tick, and detached handles are the tickets' own. |
| RunnerTick.CollectingStrandsNobody | src/expfactory/runner.py:525-530 | A parked ticket whose job collection closed was handed on by that same collection. |
| RunnerTick.SweepingStrandsNobody | src/expfactory/runner.py:532-537 | If the sweep sees nothing finished that collection had not, a parked ticket whose job it closed was grounded. |
| RunnerTick.SilentExactlyWhenAllDone | src/expfactory/registry.py:1427-1448 | A sweep leaves a ticket with neither an open job nor a named loss exactly when each of its jobs was overdue and reported done. |
| RunnerTick.OpenAfterARaiseExactlyWhen | src/expfactory/runner.py:669-693 | Where a sweep raises, and so nobody is grounded, a ticket keeps an open job exactly when one of its jobs was not reached or not overdue; the others wait on nothing. |
| RunnerTick.Runner.Operate | src/expfactory/runner.py:518-599 | Poll after poll with people at the board and other processes in between: each errand does all that it is to do, people's moves as they meant them, and a tick as `Tick` says, by what its sessions and harvests were and by what the log said when it swept and when it read the breaker. The boards form a history the bounds are about, work in flight is within max_concurrent on each and even between two writes, and, while people take up nothing themselves, in flight plus waiting stays below the two limits together exactly when every tick fits, which holds while every ticket with an open job, when a tick begins or when it sweeps, is in flight or waiting. As long as people park nobody, sweeps end, answers hold still within a tick and detached handles are the tickets' own, every parked ticket has an open job, after each errand. |
| Metrics.RecordedIsJudgedExactlyWhen | src/expfactory/verifier.py:224-237 | The values a verdict averages for a metric are the values the gates judged exactly when no run has a second number under val_metric and no judged value is a boolean. |
| Metrics.ASecondNumberMovesTheBaseline | src/expfactory/verifier.py:231-236 | Where they part: a run judged by its own number is recorded at the mean of that and a hidden one. |
| Metrics.MeanMetrics | src/expfactory/verifier.py:224-237 | Every name some run put a number under, with the mean over all numbers put there. |
| Metrics.MetricValueMeans | src/expfactory/prereg.py:268-300 | What number a run shows under a name: its own metric, or the number or boolean under that name, and none for text. |
| Gates.NoLeakageExactlyWhen | src/expfactory/harness.py:146-156 | The gate passes exactly when every single run has zero overlap. |
| Gates.GateReproducible | src/expfactory/harness.py:204-214 | Passes exactly when any two runs of one seed agree to the tolerance. |
| Gates.VarianceIsOfPairs | src/expfactory/harness.py:78-84 | n (n - 1) times the variance of n values is the sum of the squared differences of all pairs. |
| Gates.SeedVarianceExactlyWhen | src/expfactory/harness.py:158-184 | Passes exactly with three seeds or more and a gain above zero whose square, times the number of values, exceeds four times both spreads together, a spread being the summed squared differences of all pairs over n (n - 1); without a baseline the seeds suffice. |
| Gates.DominanceExactlyWhen | src/expfactory/gates_v1.py:218-284 | Passes on three or more values exactly when none stands further above all the others than the others lie apart, in whatever order the runs came. |
| SessionFolds.GateNoGroupLeakage | src/expfactory/gates_v1.py:345-400 | G-09 blocks as undeclared, names a leak and passes exactly as each run's recorded groups say: both sides declared and nonempty, and no group on both. |
| Prereg.SatisfiedExactlyWhen | src/expfactory/prereg.py:312-489 | G-07 passes exactly when the cited rule was filed before the run and met: same seeds, guardrails held, baseline as the parent recorded, effect reached. |
| Prereg.EachSeedOnce | src/expfactory/prereg.py:377-387 | Meeting a rule means each declared seed was run exactly once and nothing else was. |
| Prereg.GuardsHold | src/expfactory/prereg.py:399-427 | No guardrail fails exactly when each was reported, measured on the parent, and lost no more than its tolerance. |
| VerdictLedger.ReadBackExactlyWhenConsistent | src/expfactory/verifier.py:296-394 | A verdict survives being written and read, and a record that claims a promotion its blocked gates deny cannot be read at all. |
| VerdictLedger.Ledger.GetPrereg | src/expfactory/verifier.py:721-725 | Finds a record exactly for a filed hash, and that record has that hash. |
| VerdictLedger.Ledger.NonPromotingPreregCount | src/expfactory/verifier.py:727-749 | The number of filings of the lineage that no promoted verdict cites; zero without a lineage. |
| VerdictLedger.FiledOneMore | src/expfactory/verifier.py:715-719 | One more row adds exactly its own rule's hash to the filed ones, if it files one. |
| VerdictLedger.AttemptsOneMore | src/expfactory/verifier.py:727-749 | What one more row does to those filings: a filing of the lineage not already promoted is added, a promoted verdict removes the filings of the rule it cites, nothing else changes. |
| VerdictLedger.Ledger.GetVerdictMetrics | src/expfactory/verifier.py:762-805 | The finite metrics of the newest verdict of the experiment, or none. |
| VerdictLedger.Ledger.PositionOfVerdict | src/expfactory/verifier.py:807-816 | The first line of the experiment's verdict, if any. |
| VerdictLedger.Ledger.PositionOfPrereg | src/expfactory/verifier.py:818-822 | The first line the hash was filed at, if any. |
| Verifier.GateVerifier.PreregCtx | src/expfactory/verifier.py:490-541 | The context holds only what the ledger says, apart from the citation and the exploratory flag; a candidate that disagrees with its rule about the parent is refused. |
| Verifier.GateVerifier.DefaultGates | src/expfactory/harness.py:146-237 | Nothing in the default set blocks exactly when each run is leak-free, seeds repeat, the gain exceeds two pooled standard errors, stated over the pairs of values, and cost and holdout are within budget; what blocks is named gate by gate, and the plausibility gate, which never blocks, fails exactly on a gain over 0.15 or without two means to compare. |
| Verifier.GateVerifier.PromotableExactlyWhen | src/expfactory/verifier.py:543-592 | The list of blocking gates, each entered for its own condition, is empty exactly when everything the gates hold a candidate to is met. |
| Verifier.GateVerifier.Run | src/expfactory/verifier.py:543-592 | A bundle is promoted exactly when everything the gates hold a candidate to is met, the usual ones or the caller's own list and always the later ones; it names exactly the gates that block and all that ran, in order, records the runs' means, cost, configuration and code, and shows the preregistration gates whenever they were required. |
| Lineage.FileRule | src/expfactory/verifier.py:678-680 | Filing a rule keeps the ledger honest: every promotion in it was earned over exactly the rows before it. |
| Lineage.VerifyAndRecord | src/expfactory/verifier.py:543-592 | Verifying over the ledger with the usual gates or any others and appending the verdict keeps the ledger honest; a candidate that disagrees with its rule about the parent is refused and nothing is written; a promotion is recorded exactly when everything asked is met. |
| Lineage.PromotionSoundness | src/expfactory/prereg.py:377-489 | A promotion in an honest ledger rests on a rule filed earlier for the lineage its candidate declares: each declared seed once and at least three, no seed lottery, baseline within tolerance of what the parent recorded, guardrails held, effect met, attempts within the limit; and zero overlap on every run if the usual gates passed it. |
| Lineage.OneImprovement | src/expfactory/prereg.py:429-482 | A promotion's recorded mean is at least its parent's recorded mean plus the declared minimum effect, less the baseline tolerance, whatever gates came before the preregistration's. |
| Lineage.ChainOfImprovements | src/expfactory/prereg.py:429-482 | Along any chain of promotions, each citing the one before, the last recorded mean is at least the first plus the declared minimum effects, less 1e-9 a step. |
| Lineage.GuardedMetricsHold | src/expfactory/prereg.py:399-427 | A metric guarded along a chain loses at most the sum of the declared tolerances. |
| Lineage.AbsorbingLockout | src/expfactory/verifier.py:727-749 | Once a lineage holds more unpromoted filings than the limit, the count never falls, and every later promotion cites a rule of another lineage and is earned only by candidates that declare another parent, with whatever gates. |
| Improvement.ImprovementsHappen | src/expfactory/prereg.py:429-489 | What the lineage theorems assume can be met: an honest ledger with a root verdict, a rule and a promotion that improves on the root by exactly what the rule declares. |
| PageWalk.WalkGitHub | src/expfactory/github_tracker.py:287-334 | Asks for at most 200 pages, each the one its predecessor names and none twice, and returns exactly the items of the whole chain, or fails exactly when the chain does not end within 200 pages; the failure is the transport's exactly when the last request raised. |
| PageWalk.WholeOnGitHub | src/expfactory/github_tracker.py:287-334 | What a whole chain of pages is on this server: each path the one the page before links to, all readable lists, the last without a link; its items are the pages' items in order. |
| PageWalk.OneAnswerPerWalk | src/expfactory/github_tracker.py:287-334 | What a walk answers, the kind of failure included, is decided by the transport alone. |
| PageWalk.WalkLinear | src/expfactory/linear_tracker.py:306-413 | The same for cursors and queries, where a missing or null connection and a missing or repeated cursor are refusals and missing page information is the end. |
| PageWalk.WholeOnLinear | src/expfactory/linear_tracker.py:306-413 | The same for cursors: each the end cursor of a page that has a next one, the first none. |
| PageWalk.NoPageTwice | src/expfactory/github_tracker.py:321-331 | A chain of pages that ends has no page twice, so refusing a repeated page refuses no readable collection. |
| Attribution.MostRecent | src/expfactory/linear_tracker.py:415-571 | Refuses exactly when an application cannot be placed or the newest ones name two parties; else answers for that one party. |
| Attribution.NamedExactlyWhen | src/expfactory/github_tracker.py:394-472 | A name is given exactly when every application can be placed and all the newest are by that account. |
| Attribution.FromTimeline | src/expfactory/github_tracker.py:394-472 | An answer that is right about the applications is right about the events themselves: a name exactly when the newest events labeling with the tag are all by that login, a refusal exactly when one has no time or two newest differ. |
| Attribution.FromHistory | src/expfactory/linear_tracker.py:499-592 | The same about history entries: a name exactly when the newest ones adding the label all have that actor and no bot. |
| Attribution.OrderDoesNotMatter | src/expfactory/linear_tracker.py:538-571 | The same entries in another order come to the same answer. |
| Attribution.PagingDoesNotMatter | src/expfactory/github_tracker.py:375-472 | Two servers holding the same entries, in any order and cut into any pages, get the same answer, unless one has more pages than a walk reads. |
| Attribution.OneTransportOneAnswer | src/expfactory/linear_tracker.py:499-592 | One transport gives one answer: a name, no name, or one and the same failure. |
| Attribution.GitHubLabelActor | src/expfactory/github_tracker.py:375-472 | Over the whole timeline's own events: `Ok(Some(name))` exactly when every event labeling with that tag can be placed and each newest one is by that login; no name for an event without one; refused exactly when one cannot be placed or the newest ones disagree; a failure to read the timeline is the walk's own. |
| Attribution.LinearLabelActor | src/expfactory/linear_tracker.py:499-592 | The same over the issue's history entries that add the first label of that name: a name exactly when each newest entry has that actor and no bot, never a name for a newest entry by a bot; an unknown label has no actor. |
| SessionFolds.Sessions | src/expfactory/drone_audio.py:243-247 | Groups every sample under its session, in order. |
| SessionFolds.SessionGroupedFolds | src/expfactory/drone_audio.py:250-279 | For every source of draws: refused exactly when k is below two or there are fewer sessions than k; else the sessions' names, sorted and then shuffled place by place with those draws, are dealt round to k folds, and each fold has the samples of its sessions against all others. |
| SessionFolds.OneSourceOneAssignment | src/expfactory/drone_audio.py:259-271 | The seed decides: whatever the order of the samples, the same sessions and the same draws put every session in the same fold. |
| SessionFolds.EveryOrderIsDrawn | src/expfactory/drone_audio.py:269-270 | And it is free to: every order of the names is what some draws come to. |
| NameOrder.PrecedesMeans | src/expfactory/drone_audio.py:265 | The order names are sorted in: one comes before another exactly when, after a common start, it ends first or has the smaller character. |
| NameOrder.OneOrder | src/expfactory/drone_audio.py:265 | A set of names can be sorted in one way only. |
| SessionFolds.EachSampleEvaluatedOnce | src/expfactory/drone_audio.py:273-279 | The evaluation sides of all folds together are the samples, each as often as it was given. |
| SessionFolds.EachFoldIsASplit | src/expfactory/drone_audio.py:273-279 | Each fold's two sides together are the samples. |
| SessionFolds.FoldsAreEven | src/expfactory/drone_audio.py:269-279 | Sessions per fold differ by at most one, and neither side of a fold is empty. |
| SessionFolds.FoldsPassTheGate | src/expfactory/gates_v1.py:371-400 | No session is on both sides of a fold, so G-09 passes on what a run over it records. |
| LadderFeedback.LabelStore.Score | src/expfactory/scorer.py:102-127 | Scores exactly the complete answers to this set, as the fraction answered correctly, in [0, 1]. |
| LadderFeedback.Ladder.Report | src/expfactory/scorer.py:192-206 | Discloses and adopts a value exactly when there was no incumbent or it is beaten by more than the step. |
| LadderFeedback.IncumbentWasSeen | src/expfactory/scorer.py:192-206 | The incumbent is where it started or one of the values seen, and never falls. |
| LadderFeedback.WithinAStepOfTheBest | src/expfactory/scorer.py:192-206 | No value seen is more than a step above the incumbent. |
| LadderFeedback.DisclosureBound | src/expfactory/scorer.py:178-206 | With scores in [0, 1], d disclosures satisfy d * step <= 1 + step from an empty ladder and d * step <= 1 - incumbent from one that starts with an incumbent, however submissions adapt. |
| LadderFeedback.SilenceTellsNothing | src/expfactory/scorer.py:203-206 | Replacing undisclosed values by others that would not have been disclosed changes no answer and no incumbent. |

## Left out

- JSON text, file encodings, `fsync`, OS locks, real processes and pids: the log is a sequence of rows with an unreadable variant, the lock is mutual exclusion, and liveness is part of the disk's state, with pid reuse as an oracle.
- Lock timeouts: waiting for the admission lock always succeeds here.
- A torn row that still parses as a shorter valid row: a proper prefix of a row is taken to be unreadable.
- Two processes collecting from one registry at a time: one collector is assumed, any number of submitters is not.
- `cancel`, the cost model's rates and the probing of devices: the free memory and the quote are inputs.
- LocalDisk.CapacityHolds: leaves out a death while the pid is written, for which LocalDisk.TornPidFreesASlot shows that the limit fails and LocalDisk.LimitPassedExactlyWhen when.
- RunnerTick.Runner.Tick: assumes that calls to the tracker return; an exception from one ends the tick in the middle of whatever it was doing.
- RunnerTick.Runner.Tick: the parked-ticket clause is about ticks that end; a sweep that raises can strand a ticket, since ReconcileLost then grounds nobody.
- RunnerTick.Runner.Operate: people start no work of their own; a ticket they put in progress would count against the limit without being bound by it.
- The runner without a registry: every runner here has one, and may lack only the collector.
- The checks made when a runner, a candidate, a run record, a preregistration or a ladder is constructed: they are well-formedness predicates or preconditions here, not refusals; the reals leave nothing of the finiteness checks.
- The deterministic lane's exit-code verifier, artifacts, configuration contents, and every detail string, comment and proof-of-work block.
- The rules by which a diff weakens the tests: whether it does is an input to the verifier.
- How the plausibility gate (`too_good_to_be_true`) came out is not in the modelled bundle, only that it ran.
- Python's random generator: the places a shuffle draws are an input to the folds. The samples' file names and how a session is read from one are not modelled, nor the clip-level split kept for comparison.
- Parsing of `Link` headers and the refusal of off-host paths: the next page, or its refusal, is a function of the page (the token set of `rel` is section 3.3 of RFC 8288).
- The truncated label set of one Linear issue, the order in which open tickets are listed, and the cached workflow states.
- `egress.py`, `sandbox.py`, `literature.py`, `review_fleet.py`, `holdout.py`, `substrate_guard.py`, `llm_probe.py`, `gate_probe.py`, `adversarial_suite.py` and `selfcheck.py`: tables, validators and fixtures that would add only easy members.
