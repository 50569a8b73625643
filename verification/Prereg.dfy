// Preregistrations, and the two gates that hold a run to one: G-07, which judges
// the run against its declared rule, and G-08, which counts attempts.
module Prereg {
  import opened Prelude
  import opened Sorting
  import opened Metrics

  const BASELINE_TOLERANCE: real := 0.000000001
  const DEFAULT_MAX_ATTEMPTS: nat := 3

  datatype Direction = Maximize | Minimize

  // Higher is better, whichever way the metric points.
  ghost function Better(d: Direction, x: real): real
  {
    if d == Maximize then x else -x
  }

  datatype Guardrail = Guardrail(metric: string, direction: Direction, tolerance: real)
  {
    predicate Regressed(observed: real, parent: real)
      ensures Regressed(observed, parent) <==> Better(direction, observed) < Better(direction, parent) - tolerance
    {
      if direction == Maximize then observed < parent - tolerance else observed > parent + tolerance
    }
  }

  datatype Preregistration = Preregistration(
    primary: string, direction: Direction, baseline: real, minimumEffect: real, seeds: seq<int>,
    secondary: set<string>, guardrails: seq<Guardrail>, parent: Option<string>, supersedes: Option<string>)
  {
    // What construction refuses to go without.
    ghost predicate WellFormed()
    {
      && minimumEffect >= 0.0 && seeds != [] && Distinct(seeds)
      && forall i :: 0 <= i < |guardrails| ==>
           guardrails[i].tolerance >= 0.0 && guardrails[i].metric != primary && guardrails[i].metric !in secondary
    }
  }

  // Content hashes are taken to be injective. A citation may also be any text.
  datatype Hash = Digest(of: Preregistration) | OtherText(text: string)

  datatype PreregContext = PreregContext(
    prereg: Option<Preregistration>, exploratory: bool, filed: set<Hash>, cited: Option<Hash>, attempts: nat,
    parentMetrics: map<string, real>, preregPosition: Option<nat>, verdictPosition: Option<nat>)

  // -- G-07 ------------------------------------------------------------------------

  datatype G07Outcome =
    | Exploratory | NotCited | NotTheRecord | NotFiled | FiledAfterTheVerdict | SeedShopping | PrimaryNotReported
    | GuardNotReported | GuardNotMeasured | GuardRegression
    | NoParent | ParentNotMeasured | ForgedBaseline | EffectTooSmall | Satisfied

  function Seeds(runs: seq<RunResult>): seq<int>
  {
    if runs == [] then [] else Seeds(runs[..|runs| - 1]) + [runs[|runs| - 1].seed]
  }

  lemma {:induction false} SeedsAre(runs: seq<RunResult>)
    ensures |Seeds(runs)| == |runs| && forall i :: 0 <= i < |runs| ==> Seeds(runs)[i] == runs[i].seed
  {
    if runs != [] {
      SeedsAre(runs[..|runs| - 1]);
    }
  }

  function SeedRank(seed: int): real { seed as real }

  predicate SameSeeds(runs: seq<RunResult>, declared: seq<int>)
  {
    SortBy(Seeds(runs), SeedRank) == SortBy(declared, SeedRank)
  }

  lemma SameSeedsMeans(runs: seq<RunResult>, declared: seq<int>)
    ensures SameSeeds(runs, declared) <==> multiset(Seeds(runs)) == multiset(declared)
    ensures SameSeeds(runs, declared) ==> |runs| == |declared|
  {
    SortedAlike(Seeds(runs), declared, SeedRank);
    SortedLength(Seeds(runs), SeedRank);
    SortedLength(declared, SeedRank);
    SeedsAre(runs);
  }

  // The mean the gates judge a metric by.
  function JudgedMean(runs: seq<RunResult>, name: string): real
    requires runs != [] && Reported(runs, name)
  {
    AtLeastAsMany(runs, name);
    Mean(Judged(runs, name))
  }

  function GuardFailure(runs: seq<RunResult>, guards: seq<Guardrail>, parent: map<string, real>): Option<G07Outcome>
    requires runs != []
  {
    if guards == [] then None
    else
      var g := guards[0];
      if !Reported(runs, g.metric) then Some(GuardNotReported)
      else if g.metric !in parent then Some(GuardNotMeasured)
      else if g.Regressed(JudgedMean(runs, g.metric), parent[g.metric]) then Some(GuardRegression)
      else GuardFailure(runs, guards[1..], parent)
  }

  // Rules 7, 1 and 2: was this rule fixed, and filed, before the run.
  function FilingFailure(ctx: PreregContext): Option<G07Outcome>
  {
    if ctx.exploratory then Some(Exploratory)
    else if ctx.cited.None? || ctx.prereg.None? then Some(NotCited)
    else if Digest(ctx.prereg.value) != ctx.cited.value then Some(NotTheRecord)
    else if ctx.cited.value !in ctx.filed then Some(NotFiled)
    else if ctx.verdictPosition.Some? && ctx.preregPosition.Some? && ctx.preregPosition.value >= ctx.verdictPosition.value then
      Some(FiledAfterTheVerdict)
    else None
  }

  // Rules 5, 3, 6, 8 and 4, in that order.
  function RuleOutcome(runs: seq<RunResult>, p: Preregistration, parent: map<string, real>): G07Outcome
    requires p.WellFormed()
  {
    SameSeedsMeans(runs, p.seeds);
    if !SameSeeds(runs, p.seeds) then SeedShopping
    else if !Reported(runs, p.primary) then PrimaryNotReported
    else
      var guard := GuardFailure(runs, p.guardrails, parent);
      if guard.Some? then guard.value
      else if p.parent.None? then NoParent
      else if p.primary !in parent then ParentNotMeasured
      else if Distance(parent[p.primary], p.baseline) > BASELINE_TOLERANCE then ForgedBaseline
      else if Effect(p, JudgedMean(runs, p.primary)) < p.minimumEffect then EffectTooSmall
      else Satisfied
  }

  function GatePreregistration(runs: seq<RunResult>, ctx: PreregContext): G07Outcome
    requires ctx.prereg.Some? ==> ctx.prereg.value.WellFormed()
  {
    var filing := FilingFailure(ctx);
    if filing.Some? then filing.value else RuleOutcome(runs, ctx.prereg.value, ctx.parentMetrics)
  }

  function Distance(a: real, b: real): real
  {
    if a >= b then a - b else b - a
  }

  function Effect(p: Preregistration, observed: real): (e: real)
    ensures e == Better(p.direction, observed) - Better(p.direction, p.baseline)
  {
    if p.direction == Maximize then observed - p.baseline else p.baseline - observed
  }

  // A guardrail was reported by every run, measured on the parent, and did not
  // lose more than its tolerance.
  ghost predicate Holds(runs: seq<RunResult>, g: Guardrail, parent: map<string, real>)
    requires runs != []
  {
    && Reported(runs, g.metric) && g.metric in parent
    && Better(g.direction, JudgedMean(runs, g.metric)) >= Better(g.direction, parent[g.metric]) - g.tolerance
  }

  // The declared rule, met on the declared seeds against what the parent scored.
  ghost predicate Met(runs: seq<RunResult>, p: Preregistration, parent: map<string, real>)
  {
    && runs != [] && multiset(Seeds(runs)) == multiset(p.seeds)
    && (forall i :: 0 <= i < |p.guardrails| ==> Holds(runs, p.guardrails[i], parent))
    && p.parent.Some? && p.primary in parent && -0.000000001 <= parent[p.primary] - p.baseline <= 0.000000001
    && Reported(runs, p.primary)
    && Better(p.direction, JudgedMean(runs, p.primary)) - Better(p.direction, p.baseline) >= p.minimumEffect
  }

  ghost predicate FiledBeforehand(ctx: PreregContext)
  {
    && !ctx.exploratory && ctx.prereg.Some? && ctx.cited == Some(Digest(ctx.prereg.value)) && ctx.cited.value in ctx.filed
    && (ctx.verdictPosition.Some? && ctx.preregPosition.Some? ==> ctx.preregPosition.value < ctx.verdictPosition.value)
  }

  lemma {:induction false} GuardsHold(runs: seq<RunResult>, guards: seq<Guardrail>, parent: map<string, real>)
    requires runs != []
    ensures GuardFailure(runs, guards, parent).None? <==> forall i :: 0 <= i < |guards| ==> Holds(runs, guards[i], parent)
  {
    if guards != [] {
      GuardsHold(runs, guards[1..], parent);
      var rest := guards[1..];
      assert (forall i :: 0 <= i < |guards| ==> Holds(runs, guards[i], parent)) <==>
             Holds(runs, guards[0], parent) && forall i :: 0 <= i < |rest| ==> Holds(runs, rest[i], parent) by {
        assert forall i :: 0 < i < |guards| ==> guards[i] == rest[i - 1];
        assert forall i :: 0 <= i < |rest| ==> rest[i] == guards[i + 1];
      }
    }
  }

  lemma RuleMetExactlyWhen(runs: seq<RunResult>, p: Preregistration, parent: map<string, real>)
    requires p.WellFormed()
    ensures RuleOutcome(runs, p, parent) == Satisfied <==> Met(runs, p, parent)
  {
    SameSeedsMeans(runs, p.seeds);
    if runs != [] {
      GuardsHold(runs, p.guardrails, parent);
      GuardFailureIsNotSatisfied(runs, p.guardrails, parent);
    }
  }

  lemma FiledExactlyWhen(ctx: PreregContext)
    ensures FilingFailure(ctx).None? <==> FiledBeforehand(ctx)
    ensures FilingFailure(ctx) != Some(Satisfied)
  {
  }

  // G-07 passes exactly when a rule fixed beforehand was met.
  lemma SatisfiedExactlyWhen(runs: seq<RunResult>, ctx: PreregContext)
    requires ctx.prereg.Some? ==> ctx.prereg.value.WellFormed()
    ensures GatePreregistration(runs, ctx) == Satisfied <==>
              FiledBeforehand(ctx) && Met(runs, ctx.prereg.value, ctx.parentMetrics)
  {
    FiledExactlyWhen(ctx);
    if ctx.prereg.Some? {
      RuleMetExactlyWhen(runs, ctx.prereg.value, ctx.parentMetrics);
    }
  }

  lemma {:induction false} GuardFailureIsNotSatisfied(runs: seq<RunResult>, guards: seq<Guardrail>, parent: map<string, real>)
    requires runs != []
    ensures GuardFailure(runs, guards, parent) != Some(Satisfied)
  {
    if guards != [] {
      GuardFailureIsNotSatisfied(runs, guards[1..], parent);
    }
  }

  // Meeting a rule means each declared seed was run exactly once and nothing else was.
  lemma EachSeedOnce(runs: seq<RunResult>, p: Preregistration)
    requires p.WellFormed() && multiset(Seeds(runs)) == multiset(p.seeds)
    ensures |runs| == |p.seeds|
    ensures forall i, j :: 0 <= i < j < |runs| ==> runs[i].seed != runs[j].seed
    ensures forall s :: s in p.seeds <==> exists i :: 0 <= i < |runs| && runs[i].seed == s
  {
    SeedsAre(runs);
    var seeds := Seeds(runs);
    Rearranged(p.seeds, seeds);
    forall i, j | 0 <= i < j < |runs| ensures runs[i].seed != runs[j].seed {
      assert seeds[i] != seeds[j];
    }
    forall s ensures s in p.seeds <==> exists i :: 0 <= i < |runs| && runs[i].seed == s {
      if s in p.seeds {
        assert s in seeds;
        var i :| 0 <= i < |seeds| && seeds[i] == s;
        assert runs[i].seed == s;
      }
      if i :| 0 <= i < |runs| && runs[i].seed == s {
        assert seeds[i] in seeds;
      }
    }
  }

  // -- G-08 ------------------------------------------------------------------------

  predicate GatePreregChurn(ctx: PreregContext, maxAttempts: nat)
  {
    ctx.exploratory || ctx.attempts <= maxAttempts
  }
}
