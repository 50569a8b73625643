// The verifier: run every gate over a candidate, and promote exactly when none
// that blocks has failed.
module Verifier {
  import opened Prelude
  import opened RegistryLog
  import opened SessionFolds
  import opened Attestation
  import opened Metrics
  import opened Gates
  import opened Prereg
  import opened VerdictLedger

  // What an agent hands over. `weakens` is what the diff gate found, if there was a diff.
  datatype Candidate = Candidate(
    runs: seq<RunResult>, cost: real, parent: Option<string>, cited: Option<Hash>, exploratory: bool,
    attestation: Option<RunAttestation>, weakens: Option<bool>, config: string, codeHash: string)

  datatype GateResult = GateResult(name: string, passed: bool, blocking: bool)

  datatype Disagreement = ParentsDiffer

  const HOLDOUT_BUDGET: nat := 10
  const IMPLAUSIBLE_DELTA: real := 0.15

  const DEFAULT: seq<string> := ["no_leakage", "reproducible", "seed_variance", "too_good_to_be_true", "holdout_budget", "cost"]
  const CLOSING: seq<string> := ["no_single_seed_dominance", "no_group_leakage", "attested_run"]

  function BlockedBy(gates: seq<GateResult>): seq<string>
  {
    if gates == [] then []
    else
      var last := gates[|gates| - 1];
      BlockedBy(gates[..|gates| - 1]) + if last.blocking && !last.passed then [last.name] else []
  }

  lemma {:induction false} BlockedByTogether(a: seq<GateResult>, b: seq<GateResult>)
    ensures BlockedBy(a + b) == BlockedBy(a) + BlockedBy(b)
  {
    if b == [] {
      assert a + b == a;
    } else {
      var n := |b| - 1;
      BlockedByTogether(a, b[..n]);
      assert (a + b)[..|a + b| - 1] == a + b[..n] && (a + b)[|a + b| - 1] == b[n];
    }
  }

  lemma BlockedByOne(g: GateResult)
    ensures BlockedBy([g]) == (if g.blocking && !g.passed then [g.name] else [])
  {
    assert [g][..0] == [] && BlockedBy([]) == [];
  }

  ghost function Unless(name: string, held: bool): seq<string>
  {
    if held then [] else [name]
  }

  ghost function BlocksAlone(g: GateResult): seq<string>
  {
    Unless(g.name, Fine(g))
  }

  lemma BlockedByTwo(gates: seq<GateResult>)
    requires |gates| == 2
    ensures BlockedBy(gates) == BlocksAlone(gates[0]) + BlocksAlone(gates[1])
  {
    assert gates == [gates[0]] + [gates[1]];
    BlockedByTogether([gates[0]], [gates[1]]);
    BlockedByOne(gates[0]);
    BlockedByOne(gates[1]);
  }

  lemma BlockedByThree(gates: seq<GateResult>)
    requires |gates| == 3
    ensures BlockedBy(gates) == BlocksAlone(gates[0]) + BlocksAlone(gates[1]) + BlocksAlone(gates[2])
  {
    assert gates == gates[..2] + [gates[2]];
    BlockedByTogether(gates[..2], [gates[2]]);
    BlockedByTwo(gates[..2]);
    BlockedByOne(gates[2]);
  }

  lemma BlockedBySix(gates: seq<GateResult>)
    requires |gates| == 6
    ensures BlockedBy(gates) ==
            BlocksAlone(gates[0]) + BlocksAlone(gates[1]) + BlocksAlone(gates[2]) +
            BlocksAlone(gates[3]) + BlocksAlone(gates[4]) + BlocksAlone(gates[5])
  {
    assert gates == gates[..3] + gates[3..];
    BlockedByTogether(gates[..3], gates[3..]);
    BlockedByThree(gates[..3]);
    BlockedByThree(gates[3..]);
  }

  lemma TwoAddUp(a: GateResult, b: GateResult)
    ensures BlockedBy([a, b]) == BlocksAlone(a) + BlocksAlone(b) && Names([a, b]) == [a.name, b.name]
  {
    BlockedByTwo([a, b]);
  }

  lemma SixAddUp(a: GateResult, b: GateResult, c: GateResult, d: GateResult, e: GateResult, f: GateResult)
    ensures BlockedBy([a, b, c, d, e, f]) ==
            BlocksAlone(a) + BlocksAlone(b) + BlocksAlone(c) + BlocksAlone(d) + BlocksAlone(e) + BlocksAlone(f)
    ensures Names([a, b, c, d, e, f]) == [a.name, b.name, c.name, d.name, e.name, f.name]
  {
    BlockedBySix([a, b, c, d, e, f]);
  }

  lemma ClosingAddUp(lottery: GateResult, leak: GateResult, ran: GateResult, diff: seq<GateResult>, weakens: Option<bool>)
    requires diff == if weakens.Some? then [GateResult("no_test_tampering", !weakens.value, true)] else []
    ensures BlockedBy([lottery, leak, ran] + diff) ==
            BlocksAlone(lottery) + BlocksAlone(leak) + BlocksAlone(ran) + Unless("no_test_tampering", weakens != Some(true))
    ensures Names([lottery, leak, ran] + diff) ==
            [lottery.name, leak.name, ran.name] + if weakens.Some? then ["no_test_tampering"] else []
  {
    BlockedByThree([lottery, leak, ran]);
    BlockedByTogether([lottery, leak, ran], diff);
    if weakens.Some? {
      BlockedByOne(diff[0]);
    }
  }

  ghost predicate Fine(g: GateResult)
  {
    g.passed || !g.blocking
  }

  ghost predicate NothingBlocks(gates: seq<GateResult>)
  {
    forall i :: 0 <= i < |gates| ==> Fine(gates[i])
  }

  lemma One(a: GateResult)
    ensures NothingBlocks([a]) <==> Fine(a)
  {
    assert [a][0] == a;
  }

  lemma {:induction false} BlockedByNothing(gates: seq<GateResult>)
    ensures BlockedBy(gates) == [] <==> NothingBlocks(gates)
  {
    if gates != [] {
      var before, last := gates[..|gates| - 1], gates[|gates| - 1];
      BlockedByNothing(before);
      One(last);
      Together(before, [last]);
      assert gates == before + [last];
    }
  }

  lemma Together(a: seq<GateResult>, b: seq<GateResult>)
    ensures NothingBlocks(a + b) <==> NothingBlocks(a) && NothingBlocks(b)
  {
    assert forall i :: 0 <= i < |a| ==> (a + b)[i] == a[i];
    assert forall i :: 0 <= i < |b| ==> (a + b)[|a| + i] == b[i];
  }

  function Names(gates: seq<GateResult>): seq<string>
  {
    seq(|gates|, i requires 0 <= i < |gates| => gates[i].name)
  }

  // -- what a promotion has to satisfy -----------------------------------------------

  // The context the ledger gives a candidate: only `exploratory` and the citation
  // are the candidate's own.
  ghost predicate ContextOf(rows: seq<Row>, c: Candidate, id: string, ctx: PreregContext)
  {
    && ctx.exploratory == c.exploratory && ctx.cited == c.cited && ctx.filed == FiledHashes(rows)
    && ctx.prereg == Cited(rows, c)
    && ctx.attempts == |Attempts(rows, if ctx.prereg.Some? then ctx.prereg.value.parent else c.parent)|
    && ParentMetrics(rows, ctx.prereg, ctx.parentMetrics)
    && FirstVerdict(rows, id, ctx.verdictPosition)
    && (if c.cited.Some? then FirstFiling(rows, c.cited.value, ctx.preregPosition) else ctx.preregPosition.None?)
  }

  ghost function Cited(rows: seq<Row>, c: Candidate): Option<Preregistration>
  {
    if c.cited.Some? && c.cited.value.Digest? && c.cited.value in FiledHashes(rows) then Some(c.cited.value.of) else None
  }

  ghost predicate ParentMetrics(rows: seq<Row>, p: Option<Preregistration>, metrics: map<string, real>)
  {
    if p.Some? && p.value.parent.Some? && p.value.parent.value != "" then RecordedMetrics(rows, p.value.parent.value, metrics)
    else metrics == map[]
  }

  ghost predicate Disagrees(rows: seq<Row>, c: Candidate)
  {
    Cited(rows, c).Some? && Cited(rows, c).value.parent != c.parent
  }

  // The rule it cites was filed before it, in a lineage that is not shopping, and met.
  ghost predicate Preregistered(rows: seq<Row>, c: Candidate, id: string)
  {
    exists ctx :: ContextOf(rows, c, id, ctx) && FiledBeforehand(ctx) &&
                  Met(c.runs, ctx.prereg.value, ctx.parentMetrics) && ctx.attempts <= 3
  }

  ghost predicate HasContext(rows: seq<Row>, c: Candidate, id: string)
  {
    exists ctx :: ContextOf(rows, c, id, ctx)
  }

  ghost predicate RuleKept(rows: seq<Row>, c: Candidate, id: string)
  {
    exists ctx :: ContextOf(rows, c, id, ctx) && FiledBeforehand(ctx) && Met(c.runs, ctx.prereg.value, ctx.parentMetrics)
  }

  ghost predicate LineageOpen(rows: seq<Row>, c: Candidate, id: string)
  {
    exists ctx :: ContextOf(rows, c, id, ctx) && (c.exploratory || ctx.attempts <= 3)
  }

  ghost predicate SoundRuns(c: Candidate, baseline: Option<seq<real>>)
  {
    && (forall i :: 0 <= i < |c.runs| ==> c.runs[i].overlapCount == 0) && Agreeing(c.runs)
    && AboveNoise(Metric(c.runs), baseline) && |c.runs| >= 3 && !SeedLottery(multiset(Metric(c.runs)))
    && c.cost <= 25.0
  }

  ghost predicate GroupsApart(c: Candidate)
  {
    forall i :: 0 <= i < |c.runs| ==> PassesAlone(c.runs[i].groups)
  }

  ghost predicate Attests(log: seq<Event>, c: Candidate, ticket: Option<Ticket>)
  {
    && c.attestation.Some? && c.attestation.value.handle in Replay(log).jobs
    && var j := Replay(log).jobs[c.attestation.value.handle];
       TicketAgrees(j, ticket) && CompletionAgrees(j, c.attestation.value) && CommandAgrees(j, c.attestation.value)
  }

  // What the caller's own gates, given in place of the usual ones, make of a candidate.
  type GateList = Candidate -> seq<GateResult>

  class GateVerifier {
    const gates: Option<GateList>
    const baseline: Option<seq<real>>
    const holdoutUsed: Option<nat>
    const requirePrereg: bool
    const store: Ledger?
    const grouped: bool
    const attestations: Option<seq<Event>>

    constructor (gates: Option<GateList>, baseline: Option<seq<real>>, holdoutUsed: Option<nat>, requirePrereg: bool,
                 store: Ledger?, grouped: bool, attestations: Option<seq<Event>>)
      ensures this.gates == gates
      ensures this.baseline == baseline && this.holdoutUsed == holdoutUsed && this.requirePrereg == requirePrereg
      ensures this.store == store && this.grouped == grouped && this.attestations == attestations
    {
      this.gates, this.baseline, this.holdoutUsed, this.requirePrereg := gates, baseline, holdoutUsed, requirePrereg;
      this.store, this.grouped, this.attestations := store, grouped, attestations;
    }

    ghost function Rows(): seq<Row>
      reads store
    {
      if store == null then [] else store.rows
    }

    ghost predicate Valid()
      reads store
    {
      store != null ==> store.Valid()
    }

    // What the usual gates ask.
    ghost predicate PassesDefault(c: Candidate)
    {
      && (forall i :: 0 <= i < |c.runs| ==> c.runs[i].overlapCount == 0) && Agreeing(c.runs)
      && AboveNoise(Metric(c.runs), baseline) && c.cost <= 25.0
      && (holdoutUsed.Some? ==> holdoutUsed.value < 10)
    }

    // What each of the usual gates blocks for. The plausibility gate never blocks.
    ghost function DefaultBlocks(c: Candidate): seq<string>
    {
      Unless("no_leakage", forall i :: 0 <= i < |c.runs| ==> c.runs[i].overlapCount == 0) +
      Unless("reproducible", Agreeing(c.runs)) +
      Unless("seed_variance", AboveNoise(Metric(c.runs), baseline)) +
      Unless("too_good_to_be_true", true) +
      Unless("holdout_budget", holdoutUsed.Some? ==> holdoutUsed.value < 10) +
      Unless("cost", c.cost <= 25.0)
    }

    ghost function PreregBlocks(c: Candidate, id: string): seq<string>
      reads store
    {
      Unless("preregistration", RuleKept(Rows(), c, id)) + Unless("prereg_churn", LineageOpen(Rows(), c, id))
    }

    ghost function ClosingBlocks(c: Candidate, ticket: Option<Ticket>): seq<string>
    {
      Unless("no_single_seed_dominance", |c.runs| >= 3 && !SeedLottery(multiset(Metric(c.runs)))) +
      Unless("no_group_leakage", grouped ==> GroupsApart(c)) +
      Unless("attested_run", attestations.Some? ==> Attests(attestations.value, c, ticket)) +
      Unless("no_test_tampering", c.weakens != Some(true))
    }

    // Everything that blocks a candidate, in the order the gates run.
    ghost function Blocks(c: Candidate, id: string, ticket: Option<Ticket>): seq<string>
      reads store
    {
      (if gates.None? then DefaultBlocks(c) else BlockedBy(gates.value(c))) +
      (if requirePrereg then PreregBlocks(c, id) else []) + ClosingBlocks(c, ticket)
    }

    // Everything the gates hold a candidate to. No list of gates removes the later ones.
    ghost predicate Promotable(c: Candidate, id: string, ticket: Option<Ticket>)
      reads store
    {
      && (if gates.None? then PassesDefault(c) else NothingBlocks(gates.value(c)))
      && |c.runs| >= 3 && !SeedLottery(multiset(Metric(c.runs)))
      && (requirePrereg ==> Preregistered(Rows(), c, id))
      && (grouped ==> GroupsApart(c))
      && (attestations.Some? ==> Attests(attestations.value, c, ticket))
      && c.weakens != Some(true)
    }

    method PreregCtx(c: Candidate, id: string) returns (r: Result<PreregContext, Disagreement>)
      requires Valid()
      ensures r.Refused? <==> Disagrees(Rows(), c)
      ensures r.Ok? ==> ContextOf(Rows(), c, id, r.value) && (r.value.prereg.Some? ==> r.value.prereg.value.WellFormed())
    {
      if store == null {
        assert Attempts([], c.parent) == {} && FiledHashes([]) == {};
        return Ok(PreregContext(None, c.exploratory, {}, c.cited, 0, map[], None, None));
      }
      var record := None;
      var preregPosition := None;
      if c.cited.Some? {
        record := store.GetPrereg(c.cited.value);
        preregPosition := store.PositionOfPrereg(c.cited.value);
      }
      assert record == Cited(store.rows, c);
      if record.Some? && record.value.parent != c.parent {
        return Refused(ParentsDiffer);
      }
      var lineage := if record.Some? then record.value.parent else c.parent;
      var attempts := store.NonPromotingPreregCount(lineage);
      var metrics := map[];
      if record.Some? && record.value.parent.Some? && record.value.parent.value != "" {
        metrics := store.GetVerdictMetrics(record.value.parent.value);
      }
      var verdictPosition := store.PositionOfVerdict(id);
      return Ok(PreregContext(record, c.exploratory, FiledHashes(store.rows), c.cited, attempts, metrics, preregPosition, verdictPosition));
    }

    ghost function FirstNames(c: Candidate): seq<string>
    {
      if gates.None? then DEFAULT else Names(gates.value(c))
    }

    // Each of the usual gates on its own, in order.
    method DefaultGates(c: Candidate) returns (gates: seq<GateResult>)
      ensures Names(gates) == DEFAULT && BlockedBy(gates) == DefaultBlocks(c)
      ensures |gates| == 6 && (gates[3].passed <==> baseline.None? || NoLeap(Metric(c.runs), baseline.value))
    {
      NoLeakageExactlyWhen(c.runs);
      SeedVarianceExactlyWhen(Metric(c.runs), baseline);
      var reproducible := GateReproducible(c.runs);
      var leakage := GateResult("no_leakage", GateNoLeakage(c.runs), true);
      var repeats := GateResult("reproducible", reproducible, true);
      var noise := GateResult("seed_variance", GateSeedVariance(Metric(c.runs), baseline), true);
      var tooGood := PlausibleGate(Metric(c.runs));
      var holdout := GateResult("holdout_budget", holdoutUsed.None? || holdoutUsed.value < HOLDOUT_BUDGET, holdoutUsed.Some?);
      var cost := GateResult("cost", c.cost <= MAX_USD, true);
      SixAddUp(leakage, repeats, noise, tooGood, holdout, cost);
      return [leakage, repeats, noise, tooGood, holdout, cost];
    }

    method PlausibleGate(values: seq<real>) returns (g: GateResult)
      ensures g == GateResult("too_good_to_be_true", g.passed, false)
      ensures g.passed <==> baseline.None? || NoLeap(values, baseline.value)
    {
      var plausible := baseline.None? ||
        (values != [] && baseline.value != [] && Mean(values) - Mean(baseline.value) <= IMPLAUSIBLE_DELTA);
      g := GateResult("too_good_to_be_true", plausible, false);
    }

    // More than this is more often a bug than a discovery.
    static ghost predicate NoLeap(values: seq<real>, baseline: seq<real>)
    {
      values != [] && baseline != [] && Mean(values) <= Mean(baseline) + 0.15
    }

    method PreregGates(c: Candidate, id: string) returns (r: Result<seq<GateResult>, Disagreement>)
      requires Valid()
      ensures r.Refused? <==> Disagrees(Rows(), c)
      ensures r.Ok? ==> Names(r.value) == ["preregistration", "prereg_churn"]
      ensures r.Ok? ==> BlockedBy(r.value) == PreregBlocks(c, id) && HasContext(Rows(), c, id)
    {
      var ctx := PreregCtx(c, id);
      if ctx.Refused? {
        return Refused(ctx.why);
      }
      SatisfiedExactlyWhen(c.runs, ctx.value);
      OneContext(Rows(), c, id, ctx.value);
      var rule := GateResult("preregistration", GatePreregistration(c.runs, ctx.value) == Satisfied, true);
      var churn := GateResult("prereg_churn", GatePreregChurn(ctx.value, DEFAULT_MAX_ATTEMPTS), true);
      TwoAddUp(rule, churn);
      return Ok([rule, churn]);
    }

    method GroupGate(c: Candidate) returns (g: GateResult)
      ensures g.name == "no_group_leakage" && (Fine(g) <==> (grouped ==> GroupsApart(c)))
    {
      var groups := seq(|c.runs|, i requires 0 <= i < |c.runs| => c.runs[i].groups);
      var v := GateNoGroupLeakage(groups, grouped);
      g := GateResult("no_group_leakage", v.Passed(), v.Blocking());
      SameGroups(c, groups);
    }

    method AttestationGate(c: Candidate, ticket: Option<Ticket>) returns (g: GateResult)
      ensures g.name == "attested_run" && (Fine(g) <==> (attestations.Some? ==> Attests(attestations.value, c, ticket)))
    {
      var v := GateAttestedRun(attestations, c.attestation, ticket);
      g := GateResult("attested_run", v.Passed(), v.Blocking());
    }

    method ClosingGates(c: Candidate, ticket: Option<Ticket>) returns (gates: seq<GateResult>)
      ensures BlockedBy(gates) == ClosingBlocks(c, ticket)
      ensures Names(gates) == CLOSING + if c.weakens.Some? then ["no_test_tampering"] else []
    {
      DominanceExactlyWhen(Metric(c.runs));
      OneMetricEach(c.runs);
      var lottery := GateResult("no_single_seed_dominance", GateNoSingleSeedDominance(Metric(c.runs)), true);
      var leak := GroupGate(c);
      var ran := AttestationGate(c, ticket);
      var diff := if c.weakens.Some? then [GateResult("no_test_tampering", !c.weakens.value, true)] else [];
      ClosingAddUp(lottery, leak, ran, diff, c.weakens);
      return [lottery, leak, ran] + diff;
    }

    // A promotion is a candidate nothing blocks.
    lemma PromotableExactlyWhen(c: Candidate, id: string, ticket: Option<Ticket>)
      requires requirePrereg ==> HasContext(Rows(), c, id)
      ensures Blocks(c, id, ticket) == [] <==> Promotable(c, id, ticket)
    {
      FirstBlocksNothing(c);
      PreregBlocksNothing(c, id);
      ClosingBlocksNothing(c, ticket);
      NothingTogether(if gates.None? then DefaultBlocks(c) else BlockedBy(gates.value(c)),
                      if requirePrereg then PreregBlocks(c, id) else [], ClosingBlocks(c, ticket));
    }

    lemma FirstBlocksNothing(c: Candidate)
      ensures (if gates.None? then DefaultBlocks(c) else BlockedBy(gates.value(c))) == [] <==>
              if gates.None? then PassesDefault(c) else NothingBlocks(gates.value(c))
    {
      DefaultBlocksNothing(c);
      if gates.Some? {
        BlockedByNothing(gates.value(c));
      }
    }

    lemma PreregBlocksNothing(c: Candidate, id: string)
      requires requirePrereg ==> HasContext(Rows(), c, id)
      ensures requirePrereg ==> (PreregBlocks(c, id) == [] <==> Preregistered(Rows(), c, id))
    {
      if requirePrereg {
        var ctx :| ContextOf(Rows(), c, id, ctx);
        OneContext(Rows(), c, id, ctx);
      }
    }

    lemma DefaultBlocksNothing(c: Candidate)
      ensures DefaultBlocks(c) == [] <==> PassesDefault(c)
    {
    }

    lemma ClosingBlocksNothing(c: Candidate, ticket: Option<Ticket>)
      ensures ClosingBlocks(c, ticket) == [] <==>
                && |c.runs| >= 3 && !SeedLottery(multiset(Metric(c.runs))) && (grouped ==> GroupsApart(c))
                && (attestations.Some? ==> Attests(attestations.value, c, ticket)) && c.weakens != Some(true)
    {
    }

    // Every gate's result, in the order they run.
    method Judge(c: Candidate, ticket: Option<Ticket>, id: string) returns (r: Result<seq<GateResult>, Disagreement>)
      requires Valid()
      ensures r.Refused? <==> requirePrereg && Disagrees(Rows(), c)
      ensures r.Ok? ==> BlockedBy(r.value) == Blocks(c, id, ticket)
      ensures r.Ok? && requirePrereg ==> HasContext(Rows(), c, id)
      ensures r.Ok? ==> Names(r.value) == FirstNames(c) + (if requirePrereg then ["preregistration", "prereg_churn"] else []) +
                                          (CLOSING + if c.weakens.Some? then ["no_test_tampering"] else [])
    {
      var first;
      if gates.None? {
        first := DefaultGates(c);
      } else {
        first := gates.value(c);
      }
      var second: seq<GateResult> := [];
      if requirePrereg {
        var more := PreregGates(c, id);
        if more.Refused? {
          return Refused(more.why);
        }
        second := more.value;
      }
      var closing := ClosingGates(c, ticket);
      BlockedByTogether(first, second);
      BlockedByTogether(first + second, closing);
      NamesTogether(first, second, closing);
      return Ok(first + second + closing);
    }

    // Promotion is derived, never set: exactly what the gates hold a candidate to.
    method Run(c: Candidate, ticket: Option<Ticket>, id: string) returns (r: Result<VerdictBundle, Disagreement>)
      requires Valid()
      ensures r.Refused? <==> requirePrereg && Disagrees(Rows(), c)
      ensures r.Ok? ==>
                && r.value.Consistent() && r.value.expId == id && r.value.cited == c.cited && r.value.seeds == Seeds(c.runs)
                && Records(c.runs, r.value.metrics) && r.value.cost == c.cost
                && r.value.config == c.config && r.value.codeHash == c.codeHash
                && r.value.mean == (if c.runs == [] then Unusable else Finite(Sum(Metric(c.runs)) / |c.runs| as real))
                && r.value.blockedBy == Blocks(c, id, ticket)
                && (r.value.promoted <==> Promotable(c, id, ticket))
                && r.value.gateNames == FirstNames(c) + (if requirePrereg then ["preregistration", "prereg_churn"] else []) +
                                        (CLOSING + if c.weakens.Some? then ["no_test_tampering"] else [])
    {
      var judged := Judge(c, ticket, id);
      if judged.Refused? {
        return Refused(judged.why);
      }
      var means := MeanMetrics(c.runs);
      var blocked := BlockedBy(judged.value);
      PromotableExactlyWhen(c, id, ticket);
      var mean := if c.runs == [] then Unusable else (OneMetricEach(c.runs); Finite(Mean(Metric(c.runs))));
      var names := Names(judged.value);
      return Ok(VerdictBundle(id, blocked == [], blocked, c.config, c.codeHash, Seeds(c.runs), names, mean, c.cost, c.cited,
                              map name | name in means :: Finite(means[name])));
    }
  }

  lemma SameGroups(c: Candidate, groups: seq<RunGroups>)
    requires |groups| == |c.runs| && forall i :: 0 <= i < |c.runs| ==> groups[i] == c.runs[i].groups
    ensures (forall i :: 0 <= i < |groups| ==> PassesAlone(groups[i])) <==> GroupsApart(c)
  {
    if forall i :: 0 <= i < |groups| ==> PassesAlone(groups[i]) {
      forall i | 0 <= i < |c.runs| ensures PassesAlone(c.runs[i].groups) {
        assert PassesAlone(groups[i]);
      }
    }
  }

  // The metrics a verdict keeps of its runs.
  ghost predicate Records(runs: seq<RunResult>, metrics: map<string, Number>)
  {
    && (forall name :: name in metrics <==> Recorded(runs, name) != [])
    && forall name :: name in metrics ==> metrics[name] == Finite(Mean(Recorded(runs, name)))
  }

  lemma NothingTogether(a: seq<string>, b: seq<string>, c: seq<string>)
    ensures a + b + c == [] <==> a == [] && b == [] && c == []
  {
  }

  lemma NamesTogether(a: seq<GateResult>, b: seq<GateResult>, c: seq<GateResult>)
    ensures Names(a + b + c) == Names(a) + Names(b) + Names(c)
  {
  }

  // The ledger leaves a candidate no choice of context that could matter.
  lemma OneContext(rows: seq<Row>, c: Candidate, id: string, ctx: PreregContext)
    requires ContextOf(rows, c, id, ctx)
    ensures RuleKept(rows, c, id) <==> FiledBeforehand(ctx) && Met(c.runs, ctx.prereg.value, ctx.parentMetrics)
    ensures LineageOpen(rows, c, id) <==> c.exploratory || ctx.attempts <= 3
    ensures Preregistered(rows, c, id) <==> RuleKept(rows, c, id) && LineageOpen(rows, c, id)
  {
  }
}
