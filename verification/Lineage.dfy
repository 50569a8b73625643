// What a ledger written only by a preregistering verifier says about whole
// lineages: every promotion kept a rule fixed before it, improvements add up,
// and a lineage that shopped too long is shut for good.
module Lineage {
  import opened Prelude
  import opened RegistryLog
  import opened Metrics
  import opened Gates
  import opened Prereg
  import opened VerdictLedger
  import opened Verifier

  // What every preregistering verifier holds a promotion to over exactly the rows
  // before it, whatever list of gates its caller gave it.
  ghost predicate Earned(before: seq<Row>, b: VerdictBundle, c: Candidate)
  {
    && b.cited == c.cited && Records(c.runs, b.metrics)
    && Preregistered(before, c, b.expId) && !Disagrees(before, c)
    && |c.runs| >= 3 && !SeedLottery(multiset(Metric(c.runs)))
  }

  // The usual gates passed it too.
  ghost predicate PassedTheUsual(before: seq<Row>, b: VerdictBundle)
  {
    exists c, baseline :: Earned(before, b, c) && SoundRuns(c, baseline)
  }

  ghost predicate Fresh(before: seq<Row>, id: string)
  {
    forall j: nat :: !VerdictAt(before, j, id)
  }

  ghost predicate Justified(rows: seq<Row>, k: nat)
    requires k < |rows|
  {
    rows[k].Verdict? ==>
      && Fresh(rows[..k], rows[k].bundle.expId)
      && (rows[k].bundle.promoted ==> exists c :: Earned(rows[..k], rows[k].bundle, c))
  }

  ghost predicate Honest(rows: seq<Row>)
  {
    Readable(rows) && forall k :: 0 <= k < |rows| ==> Justified(rows, k)
  }

  lemma HonestBefore(rows: seq<Row>, n: nat)
    requires Honest(rows) && n <= |rows|
    ensures Honest(rows[..n])
  {
    forall k | 0 <= k < n ensures Justified(rows[..n], k) {
      assert Justified(rows, k) && rows[..n][..k] == rows[..k];
    }
  }

  lemma HonestAndOneMore(rows: seq<Row>, r: Row)
    requires Honest(rows) && Readable(rows + [r]) && Justified(rows + [r], |rows|)
    ensures Honest(rows + [r])
  {
    forall k | 0 <= k < |rows| + 1 ensures Justified(rows + [r], k) {
      if k < |rows| {
        assert Justified(rows, k) && (rows + [r])[..k] == rows[..k];
      }
    }
  }

  // Filing a rule keeps the ledger honest.
  method FileRule(ledger: Ledger, p: Preregistration)
    requires Honest(ledger.rows) && p.WellFormed()
    modifies ledger
    ensures Honest(ledger.rows) && ledger.rows == old(ledger.rows) + [Filing(p)]
  {
    ghost var before := ledger.rows;
    ledger.AppendPrereg(p);
    HonestAndOneMore(before, Filing(p));
  }

  // So does verifying and recording the verdict, with the usual gates or any others.
  method VerifyAndRecord(v: GateVerifier, ledger: Ledger, c: Candidate, ticket: Option<Ticket>, id: string)
    returns (r: Result<VerdictBundle, Disagreement>)
    requires v.store == ledger && v.requirePrereg && Honest(ledger.rows) && Fresh(ledger.rows, id)
    modifies ledger
    ensures Honest(ledger.rows)
    ensures r.Refused? <==> Disagrees(old(ledger.rows), c)
    ensures r.Refused? ==> ledger.rows == old(ledger.rows)
    ensures r.Ok? ==> ledger.rows == old(ledger.rows) + [Verdict(r.value)]
    ensures r.Ok? ==> (r.value.promoted <==> old(v.Promotable(c, id, ticket)))
    ensures r.Ok? && r.value.promoted ==> Earned(old(ledger.rows), r.value, c) && (v.gates.None? ==> SoundRuns(c, v.baseline))
  {
    ghost var before := ledger.rows;
    r := v.Run(c, ticket, id);
    if r.Ok? {
      NowJustified(v, before, c, ticket, r.value);
      ledger.Append(r.value);
    }
  }

  lemma NowJustified(v: GateVerifier, before: seq<Row>, c: Candidate, ticket: Option<Ticket>, b: VerdictBundle)
    requires v.Rows() == before && v.requirePrereg && Honest(before) && Fresh(before, b.expId) && !Disagrees(before, c)
    requires b.Consistent() && b.cited == c.cited && Records(c.runs, b.metrics)
    requires b.promoted ==> v.Promotable(c, b.expId, ticket)
    ensures Honest(before + [Verdict(b)])
    ensures b.promoted ==> Earned(before, b, c) && (v.gates.None? ==> SoundRuns(c, v.baseline))
  {
    assert (before + [Verdict(b)])[..|before|] == before;
    assert b.promoted ==> Earned(before, b, c);
    HonestAndOneMore(before, Verdict(b));
  }

  // -- one promotion ---------------------------------------------------------------------

  // What a promotion rests on: a rule filed at line i, and, where it matters, what
  // its parent's verdict recorded.
  ghost predicate Kept(rows: seq<Row>, k: nat, c: Candidate, p: Preregistration, parent: map<string, real>)
  {
    && k < |rows| && rows[k].Verdict? && rows[k].bundle.cited == Some(Digest(p)) && p.WellFormed()
    && (exists i: nat :: i < k && rows[i] == Filing(p))
    && p.parent.Some? && c.parent == p.parent && RecordedMetrics(rows[..k], p.parent.value, parent)
    && Met(c.runs, p, parent) && Records(c.runs, rows[k].bundle.metrics)
    && |Attempts(rows[..k], p.parent)| <= DEFAULT_MAX_ATTEMPTS
  }

  lemma Unpack(rows: seq<Row>, k: nat, c: Candidate) returns (p: Preregistration, parent: map<string, real>)
    requires Readable(rows) && k < |rows| && rows[k].Verdict? && Earned(rows[..k], rows[k].bundle, c)
    ensures Kept(rows, k, c, p, parent)
    ensures c.cited == Some(Digest(p))
  {
    var ctx :| ContextOf(rows[..k], c, rows[k].bundle.expId, ctx) && FiledBeforehand(ctx) &&
               Met(c.runs, ctx.prereg.value, ctx.parentMetrics) && ctx.attempts <= DEFAULT_MAX_ATTEMPTS;
    p, parent := ctx.prereg.value, ctx.parentMetrics;
    FiledSomewhere(rows, k, p);
  }

  lemma FiledSomewhere(rows: seq<Row>, k: nat, p: Preregistration)
    requires Readable(rows) && k <= |rows| && Digest(p) in FiledHashes(rows[..k])
    ensures p.WellFormed() && exists i: nat :: i < k && rows[i] == Filing(p)
  {
    var i :| 0 <= i < k && rows[..k][i].Filing? && Digest(rows[..k][i].prereg) == Digest(p);
    assert rows[i] == Filing(p);
  }

  // Promotion soundness, end to end. That no run leaked is for the usual gates to say.
  lemma PromotionSoundness(rows: seq<Row>, k: nat) returns (c: Candidate, p: Preregistration, parent: map<string, real>)
    requires Honest(rows) && k < |rows| && rows[k].Verdict? && rows[k].bundle.promoted
    ensures Kept(rows, k, c, p, parent)
    ensures |c.runs| == |p.seeds| >= 3 && !SeedLottery(multiset(Metric(c.runs)))
    ensures PassedTheUsual(rows[..k], rows[k].bundle) ==> forall i :: 0 <= i < |c.runs| ==> c.runs[i].overlapCount == 0
    ensures forall i, j :: 0 <= i < j < |c.runs| ==> c.runs[i].seed != c.runs[j].seed
    ensures forall s :: s in p.seeds <==> exists i :: 0 <= i < |c.runs| && c.runs[i].seed == s
    ensures -BASELINE_TOLERANCE <= parent[p.primary] - p.baseline <= BASELINE_TOLERANCE
    ensures Better(p.direction, JudgedMean(c.runs, p.primary)) - Better(p.direction, p.baseline) >= p.minimumEffect
    ensures forall i :: 0 <= i < |p.guardrails| ==> Holds(c.runs, p.guardrails[i], parent)
  {
    assert Justified(rows, k);
    c := WhoEarned(rows[..k], rows[k].bundle);
    p, parent := Unpack(rows, k, c);
    WhatARuleDemands(c, p, parent);
  }

  lemma WhatARuleDemands(c: Candidate, p: Preregistration, parent: map<string, real>)
    requires p.WellFormed() && Met(c.runs, p, parent)
    ensures |c.runs| == |p.seeds|
    ensures forall i, j :: 0 <= i < j < |c.runs| ==> c.runs[i].seed != c.runs[j].seed
    ensures forall s :: s in p.seeds <==> exists i :: 0 <= i < |c.runs| && c.runs[i].seed == s
  {
    EachSeedOnce(c.runs, p);
  }

  lemma WhoEarned(before: seq<Row>, b: VerdictBundle) returns (c: Candidate)
    requires exists c :: Earned(before, b, c)
    ensures Earned(before, b, c)
    ensures PassedTheUsual(before, b) ==> forall i :: 0 <= i < |c.runs| ==> c.runs[i].overlapCount == 0
  {
    if PassedTheUsual(before, b) {
      var baseline;
      c, baseline :| Earned(before, b, c) && SoundRuns(c, baseline);
    } else {
      c :| Earned(before, b, c);
    }
  }

  // -- chains of improvements -------------------------------------------------------------

  // A promoted verdict, who earned it, and the rule it cites.
  datatype Step = Step(at: nat, who: Candidate, rule: Preregistration)

  ghost predicate Follows(rows: seq<Row>, parent: nat, s: Step)
  {
    && parent < |rows| && rows[parent].Verdict? && s.at < |rows| && rows[s.at].Verdict?
    && Earned(rows[..s.at], rows[s.at].bundle, s.who) && rows[s.at].bundle.cited == Some(Digest(s.rule))
    && s.rule.parent == Some(rows[parent].bundle.expId)
  }

  ghost predicate Scored(rows: seq<Row>, at: nat, metric: string)
  {
    at < |rows| && rows[at].Verdict? && metric in rows[at].bundle.metrics && rows[at].bundle.metrics[metric].Finite?
  }

  ghost function Score(rows: seq<Row>, at: nat, metric: string, d: Direction): real
    requires Scored(rows, at, metric)
  {
    Better(d, rows[at].bundle.metrics[metric].value)
  }

  lemma OtherExperiment(rows: seq<Row>, i: nat, j: nat)
    requires Honest(rows) && i < j < |rows| && rows[i].Verdict? && rows[j].Verdict?
    ensures rows[i].bundle.expId != rows[j].bundle.expId
  {
    assert Justified(rows, j) && VerdictAt(rows[..j], i, rows[i].bundle.expId);
  }

  lemma SameExperiment(rows: seq<Row>, i: nat, j: nat)
    requires Honest(rows) && i < |rows| && j < |rows| && rows[i].Verdict? && rows[j].Verdict?
    requires rows[i].bundle.expId == rows[j].bundle.expId
    ensures i == j
  {
    if i < j {
      OtherExperiment(rows, i, j);
    } else if j < i {
      OtherExperiment(rows, j, i);
    }
  }

  // The newest verdict of the cited parent is that parent, since ids are not reused.
  lemma TheParentItself(rows: seq<Row>, parent: nat, s: Step, metrics: map<string, real>)
    requires Honest(rows) && Follows(rows, parent, s)
    requires RecordedMetrics(rows[..s.at], rows[parent].bundle.expId, metrics) && metrics != map[]
    ensures metrics == Usable(rows[parent].bundle.metrics) && parent < s.at
  {
    var id, before := rows[parent].bundle.expId, rows[..s.at];
    var i: nat :| NewestVerdict(before, i, id) && metrics == Usable(before[i].bundle.metrics);
    assert before[i] == rows[i];
    SameExperiment(rows, i, parent);
  }

  lemma RecordedIsJudged(runs: seq<RunResult>, metrics: map<string, Number>, name: string)
    requires runs != [] && Records(runs, metrics) && Reported(runs, name) && Unambiguous(runs, name)
    ensures name in metrics && metrics[name] == Finite(JudgedMean(runs, name))
  {
    RecordedIsJudgedExactlyWhen(runs, name);
    AtLeastAsMany(runs, name);
  }

  // One promotion: the recorded mean beats the parent's by the declared minimum,
  // to within the tolerance on the baseline.
  lemma OneImprovement(rows: seq<Row>, parent: nat, s: Step)
    requires Honest(rows) && Follows(rows, parent, s) && Unambiguous(s.who.runs, s.rule.primary)
    ensures Scored(rows, parent, s.rule.primary) && Scored(rows, s.at, s.rule.primary)
    ensures var m, d := s.rule.primary, s.rule.direction;
            Score(rows, s.at, m, d) >= Score(rows, parent, m, d) + s.rule.minimumEffect - BASELINE_TOLERANCE
  {
    var p, recorded := Unpack(rows, s.at, s.who);
    assert p == s.rule;
    assert s.rule.primary in recorded;
    TheParentItself(rows, parent, s, recorded);
    RecordedIsJudged(s.who.runs, rows[s.at].bundle.metrics, s.rule.primary);
  }

  // A metric one promotion guards loses at most the declared tolerance.
  lemma OneGuardedStep(rows: seq<Row>, parent: nat, s: Step, g: Guardrail)
    requires Honest(rows) && Follows(rows, parent, s) && g in s.rule.guardrails && Unambiguous(s.who.runs, g.metric)
    ensures Scored(rows, parent, g.metric) && Scored(rows, s.at, g.metric)
    ensures Score(rows, s.at, g.metric, g.direction) >= Score(rows, parent, g.metric, g.direction) - g.tolerance
  {
    var p, recorded := Unpack(rows, s.at, s.who);
    assert p == s.rule;
    var i :| 0 <= i < |p.guardrails| && p.guardrails[i] == g;
    assert Holds(s.who.runs, p.guardrails[i], recorded);
    assert g.metric in recorded;
    TheParentItself(rows, parent, s, recorded);
    RecordedIsJudged(s.who.runs, rows[s.at].bundle.metrics, g.metric);
  }

  ghost function Last(start: nat, chain: seq<Step>): nat
  {
    if chain == [] then start else chain[|chain| - 1].at
  }

  // Each step cites the one before it as its parent, and all improve one metric.
  ghost predicate Chain(rows: seq<Row>, start: nat, chain: seq<Step>, metric: string, d: Direction)
  {
    if chain == [] then true
    else
      var before, s := chain[..|chain| - 1], chain[|chain| - 1];
      && Chain(rows, start, before, metric, d) && Follows(rows, Last(start, before), s)
      && s.rule.primary == metric && s.rule.direction == d && Unambiguous(s.who.runs, metric)
  }

  ghost function Declared(chain: seq<Step>): real
  {
    if chain == [] then 0.0 else Declared(chain[..|chain| - 1]) + chain[|chain| - 1].rule.minimumEffect
  }

  // Along any chain of promotions the recorded means improve by the sum of the
  // declared minimum effects, less one baseline tolerance per step.
  lemma {:induction false} ChainOfImprovements(rows: seq<Row>, start: nat, chain: seq<Step>, metric: string, d: Direction)
    requires Honest(rows) && chain != [] && Chain(rows, start, chain, metric, d)
    ensures Scored(rows, start, metric) && Scored(rows, Last(start, chain), metric)
    ensures Score(rows, Last(start, chain), metric, d) >=
            Score(rows, start, metric, d) + Declared(chain) - |chain| as real * BASELINE_TOLERANCE
  {
    var n := |chain| - 1;
    var before, s := chain[..n], chain[n];
    OneImprovement(rows, Last(start, before), s);
    if before != [] {
      ChainOfImprovements(rows, start, before, metric, d);
    } else {
      assert Declared(before) == 0.0;
    }
    assert (n + 1) as real * BASELINE_TOLERANCE == n as real * BASELINE_TOLERANCE + BASELINE_TOLERANCE;
  }

  // Each step cites the one before it and guards the metric with its own tolerance.
  ghost predicate GuardedChain(rows: seq<Row>, start: nat, chain: seq<Step>, guards: seq<Guardrail>, metric: string, d: Direction)
    requires |guards| == |chain|
  {
    if chain == [] then true
    else
      var n := |chain| - 1;
      && GuardedChain(rows, start, chain[..n], guards[..n], metric, d) && Follows(rows, Last(start, chain[..n]), chain[n])
      && guards[n] in chain[n].rule.guardrails && guards[n].metric == metric && guards[n].direction == d
      && Unambiguous(chain[n].who.runs, metric)
  }

  ghost function Slack(guards: seq<Guardrail>): real
  {
    if guards == [] then 0.0 else Slack(guards[..|guards| - 1]) + guards[|guards| - 1].tolerance
  }

  // A metric guarded along a chain loses at most the sum of the tolerances.
  lemma {:induction false} GuardedMetricsHold(
    rows: seq<Row>, start: nat, chain: seq<Step>, guards: seq<Guardrail>, metric: string, d: Direction)
    requires Honest(rows) && chain != [] && |guards| == |chain| && GuardedChain(rows, start, chain, guards, metric, d)
    ensures Scored(rows, start, metric) && Scored(rows, Last(start, chain), metric)
    ensures Score(rows, Last(start, chain), metric, d) >= Score(rows, start, metric, d) - Slack(guards)
  {
    var n := |chain| - 1;
    OneGuardedStep(rows, Last(start, chain[..n]), chain[n], guards[n]);
    if n > 0 {
      GuardedMetricsHold(rows, start, chain[..n], guards[..n], metric, d);
    }
  }

  // -- the lockout -------------------------------------------------------------------------

  // It cites a rule of another lineage, and whoever earned it belongs to another.
  ghost predicate Outside(before: seq<Row>, b: VerdictBundle, parent: Option<string>)
  {
    && b.cited.Some? && b.cited.value.Digest? && b.cited.value.of.parent != parent
    && forall c :: Earned(before, b, c) ==> c.parent != parent
  }

  // A promotion cites a rule of its own lineage, and that was not over its limit.
  lemma PromotionsAreWithinTheLimit(rows: seq<Row>, k: nat, parent: Option<string>)
    requires Honest(rows) && k < |rows| && rows[k].Verdict? && rows[k].bundle.promoted
    requires |Attempts(rows[..k], parent)| > DEFAULT_MAX_ATTEMPTS
    ensures Outside(rows[..k], rows[k].bundle, parent)
  {
    assert Justified(rows, k);
    var who := WhoEarned(rows[..k], rows[k].bundle);
    var rule, recorded := Unpack(rows, k, who);
    forall c | Earned(rows[..k], rows[k].bundle, c) ensures c.parent != parent {
      var p, metrics := Unpack(rows, k, c);
    }
  }

  lemma LockedOneMore(rows: seq<Row>, r: Row, parent: Option<string>)
    requires Honest(rows + [r]) && |Attempts(rows, parent)| > DEFAULT_MAX_ATTEMPTS
    ensures r.Verdict? && r.bundle.promoted ==> Outside(rows, r.bundle, parent)
    ensures Attempts(rows, parent) <= Attempts(rows + [r], parent)
  {
    var all, n := rows + [r], |rows|;
    assert all[..n] == rows && all[n] == r;
    if r.Verdict? && r.bundle.promoted {
      PromotionsAreWithinTheLimit(all, n, parent);
    }
    PromotedOneMore(rows, r);
    forall i | i in Attempts(rows, parent) ensures i in Attempts(all, parent) {
      assert all[i] == rows[i];
    }
  }

  // Once a lineage holds more filed but unpromoted rules than the limit, it keeps
  // them, and nothing in it is ever promoted again, by its rule's parent or its own.
  lemma {:induction false} AbsorbingLockout(rows: seq<Row>, more: seq<Row>, parent: Option<string>, k: nat)
    requires Honest(rows + more) && |Attempts(rows, parent)| > DEFAULT_MAX_ATTEMPTS
    ensures |Attempts(rows + more, parent)| >= |Attempts(rows, parent)|
    ensures k < |more| && more[k].Verdict? && more[k].bundle.promoted ==> Outside(rows + more[..k], more[k].bundle, parent)
    decreases |more|
  {
    if more == [] {
      assert rows + more == rows;
    } else {
      var next, rest := rows + [more[0]], more[1..];
      assert next + rest == rows + more;
      HonestBefore(rows + more, |rows| + 1);
      assert (rows + more)[..|rows| + 1] == next;
      LockedOneMore(rows, more[0], parent);
      SubsetSize(Attempts(rows, parent), Attempts(next, parent));
      AbsorbingLockout(next, rest, parent, if k > 0 then k - 1 else 0);
      if k == 0 {
        assert rows + more[..k] == rows;
      } else if k < |more| {
        assert next + rest[..k - 1] == rows + more[..k];
      }
    }
  }
}
