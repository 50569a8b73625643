// Gate G-10: the numbers came from a job the registry recorded.
module Attestation {
  import opened Prelude
  import opened RegistryLog

  // What a candidate claims about the run behind it.
  datatype RunAttestation = RunAttestation(handle: Handle, command: Command, exitCode: int, digest: string)

  datatype Problem = WrongTicket | WrongDigest | WrongExitCode | FailedRun | RanSomethingElse | ClaimsSomethingElse

  datatype Field = ArtifactDigest | ExitCode | CommandLine

  datatype AttestedVerdict =
    | NoSource | NoAttestation | NotInTheLog
    | Unattested(problems: seq<Problem>) | Attested(unchecked: seq<Field>)
  {
    predicate Passed() { NoSource? || Attested? }
    predicate Blocking() { !NoSource? }
  }

  // The claim against the record, field by field.
  ghost predicate TicketAgrees(j: Job, ticket: Option<Ticket>)
  {
    ticket.None? || j.ticket == ticket.value
  }

  ghost predicate CompletionAgrees(j: Job, a: RunAttestation)
  {
    j.done.Some? ==> j.done.value.digest == a.digest && j.done.value.exitCode == a.exitCode == 0
  }

  ghost predicate CommandAgrees(j: Job, a: RunAttestation)
  {
    j.done.Some? && j.requested.Some? ==>
      j.requested.value == j.done.value.command && (a.command == [] || a.command == j.done.value.command)
  }

  // The problems to report, each with the claim it contradicts. A command other
  // than the one reserved hides what the candidate says about it.
  ghost predicate IsWrong(p: Problem, j: Job, a: RunAttestation, ticket: Option<Ticket>)
  {
    match p
    case WrongTicket => ticket.Some? && j.ticket != ticket.value
    case WrongDigest => j.done.Some? && j.done.value.digest != a.digest
    case WrongExitCode => j.done.Some? && j.done.value.exitCode != a.exitCode
    case FailedRun => j.done.Some? && j.done.value.exitCode != 0
    case RanSomethingElse => j.done.Some? && j.requested.Some? && j.requested.value != j.done.value.command
    case ClaimsSomethingElse =>
      && j.done.Some? && j.requested == Some(j.done.value.command)
      && a.command != [] && a.command != j.done.value.command
  }

  method GateAttestedRun(source: Option<seq<Event>>, attestation: Option<RunAttestation>, ticket: Option<Ticket>)
    returns (v: AttestedVerdict)
    ensures v.NoSource? <==> source.None?
    ensures v.NoAttestation? <==> source.Some? && attestation.None?
    ensures source.Some? && attestation.Some? ==>
              var jobs, a := Replay(source.value).jobs, attestation.value;
              && (v.NotInTheLog? <==> a.handle !in jobs)
              && (v.Attested? <==>
                    a.handle in jobs && TicketAgrees(jobs[a.handle], ticket) &&
                    CompletionAgrees(jobs[a.handle], a) && CommandAgrees(jobs[a.handle], a))
              && (v.Attested? ==>
                    && (ArtifactDigest in v.unchecked <==> jobs[a.handle].done.None?)
                    && (ExitCode in v.unchecked <==> jobs[a.handle].done.None?)
                    && (CommandLine in v.unchecked <==> jobs[a.handle].done.None? || jobs[a.handle].requested.None?))
              && (v.Unattested? ==> forall p :: p in v.problems <==> IsWrong(p, jobs[a.handle], a, ticket))
  {
    if source.None? {
      return NoSource;
    }
    if attestation.None? {
      return NoAttestation;
    }
    var a, jobs := attestation.value, Replay(source.value).jobs;
    if a.handle !in jobs {
      return NotInTheLog;
    }
    v := Compare(jobs[a.handle], a, ticket);
  }

  method Compare(j: Job, a: RunAttestation, ticket: Option<Ticket>) returns (v: AttestedVerdict)
    ensures v.Unattested? || v.Attested?
    ensures v.Attested? <==> TicketAgrees(j, ticket) && CompletionAgrees(j, a) && CommandAgrees(j, a)
    ensures v.Attested? ==>
              && (ArtifactDigest in v.unchecked <==> j.done.None?) && (ExitCode in v.unchecked <==> j.done.None?)
              && (CommandLine in v.unchecked <==> j.done.None? || j.requested.None?)
    ensures v.Unattested? ==> forall p :: p in v.problems <==> IsWrong(p, j, a, ticket)
  {
    var problems: seq<Problem> := if ticket.Some? && j.ticket != ticket.value then [WrongTicket] else [];
    var ofFiles, missing := CompareFiles(j, a);
    var ofCommand, unsaid := CompareCommand(j, a);
    problems := problems + ofFiles + ofCommand;
    if problems != [] {
      return Unattested(problems);
    }
    return Attested(missing + unsaid);
  }

  // The digest and the exit code.
  method CompareFiles(j: Job, a: RunAttestation) returns (problems: seq<Problem>, unchecked: seq<Field>)
    ensures forall p :: p in problems <==> p in {WrongDigest, WrongExitCode, FailedRun} && IsWrong(p, j, a, None)
    ensures problems == [] <==> CompletionAgrees(j, a)
    ensures unchecked == if j.done.None? then [ArtifactDigest, ExitCode] else []
  {
    problems, unchecked := [], [];
    if j.done.None? {
      unchecked := unchecked + [ArtifactDigest];
    } else if j.done.value.digest != a.digest {
      problems := problems + [WrongDigest];
    }
    if j.done.None? {
      unchecked := unchecked + [ExitCode];
    } else {
      if j.done.value.exitCode != a.exitCode {
        problems := problems + [WrongExitCode];
      }
      if j.done.value.exitCode != 0 {
        problems := problems + [FailedRun];
      }
    }
  }

  method CompareCommand(j: Job, a: RunAttestation) returns (problems: seq<Problem>, unchecked: seq<Field>)
    ensures forall p :: p in problems <==> p in {RanSomethingElse, ClaimsSomethingElse} && IsWrong(p, j, a, None)
    ensures problems == [] <==> CommandAgrees(j, a)
    ensures unchecked == if j.done.None? || j.requested.None? then [CommandLine] else []
  {
    problems, unchecked := [], [];
    if j.requested.None? || j.done.None? {
      unchecked := unchecked + [CommandLine];
    } else if j.requested.value != j.done.value.command {
      problems := problems + [RanSomethingElse];
    } else if a.command != [] && a.command != j.done.value.command {
      problems := problems + [ClaimsSomethingElse];
    }
  }

  // -- what that says about the log ------------------------------------------------

  // Row i reserves for this ticket and command under a key that row j binds to h.
  ghost predicate ReservedThenBound(rows: seq<Event>, h: Handle, ticket: Ticket, command: Option<Command>, i: nat, j: nat)
  {
    && i < j < |rows| && rows[i].Reserved? && rows[j] == Bound(rows[i].key, h)
    && rows[i].ticket == ticket && command == (if rows[i].command == [] then None else Some(rows[i].command))
  }

  ghost predicate ResolvedAfter(rows: seq<Event>, h: Handle, done: Completion, j: nat, k: nat)
  {
    j < k < |rows| && rows[k].Resolved? && rows[k].handle == h && rows[k].done == Some(done)
  }

  lemma {:induction false} ReservationRow(rows: seq<Event>, key: Key)
    requires key in Replay(rows).held
    ensures exists i :: 0 <= i < |rows| && ReservedAs(rows[i], key, Replay(rows).held[key])
  {
    var n := |rows| - 1;
    var before, e := rows[..n], rows[n];
    if e.Reserved? && e.key == key {
      assert ReservedAs(rows[n], key, Replay(rows).held[key]);
    } else {
      ReservationRow(before, key);
      var i :| 0 <= i < n && ReservedAs(before[i], key, Replay(before).held[key]);
      assert ReservedAs(rows[i], key, Replay(rows).held[key]);
    }
  }

  ghost predicate ReservedAs(e: Event, key: Key, r: Reservation)
  {
    e.Reserved? && e.key == key && e.ticket == r.ticket && r.command == if e.command == [] then None else Some(e.command)
  }

  // A job that knows the command it was reserved for was reserved and bound, in
  // that order, and what it knows of its completion was written after that.
  lemma {:induction false} JobRows(rows: seq<Event>, h: Handle) returns (i: nat, j: nat, k: nat)
    requires h in Replay(rows).jobs && Replay(rows).jobs[h].requested.Some?
    ensures ReservedThenBound(rows, h, Replay(rows).jobs[h].ticket, Replay(rows).jobs[h].requested, i, j)
    ensures Replay(rows).jobs[h].done.Some? ==> ResolvedAfter(rows, h, Replay(rows).jobs[h].done.value, j, k)
  {
    var n := |rows| - 1;
    var before, e := rows[..n], rows[n];
    if e.Bound? && e.handle == h && e.key in Replay(before).held {
      ReservationRow(before, e.key);
      i :| 0 <= i < n && ReservedAs(before[i], e.key, Replay(before).held[e.key]);
      j, k := n, 0;
    } else {
      i, j, k := JobRows(before, h);
      if e.Resolved? && e.handle == h {
        k := n;
      }
    }
  }

  // G-10 with a ticket and nothing left unchecked means that the log holds, in this
  // order, a reservation for that ticket with the command, its binding to the cited
  // handle, and a resolution with exit code 0, that command and the attested digest.
  lemma AttestedMeansLogOrder(rows: seq<Event>, a: RunAttestation, ticket: Ticket)
    requires a.handle in Replay(rows).jobs
    requires var j := Replay(rows).jobs[a.handle]; TicketAgrees(j, Some(ticket)) && CompletionAgrees(j, a) && CommandAgrees(j, a)
    requires Replay(rows).jobs[a.handle].done.Some? && Replay(rows).jobs[a.handle].requested.Some?
    ensures exists i, j, k, done: Completion ::
              && ReservedThenBound(rows, a.handle, ticket, Some(done.command), i, j)
              && ResolvedAfter(rows, a.handle, done, j, k)
              && done.exitCode == 0 && done.digest == a.digest && (a.command == [] || a.command == done.command)
  {
    var i, j, k := JobRows(rows, a.handle);
    assert ResolvedAfter(rows, a.handle, Replay(rows).jobs[a.handle].done.value, j, k);
  }
}
