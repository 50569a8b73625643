// The smallest lineage with an improvement in it: what the lineage theorems
// assume can be met.
module Improvement {
  import opened Prelude
  import opened SessionFolds
  import opened Metrics
  import opened Gates
  import opened Prereg
  import opened VerdictLedger
  import opened Verifier
  import opened Lineage

  const BEFORE: real := 0.5
  const AFTER: real := 0.75

  ghost function Root(): VerdictBundle
  {
    VerdictBundle("root", false, ["preregistration"], "", "", [], [], Finite(BEFORE), 0.0, None, map[PRIMARY_FIELD := Finite(BEFORE)])
  }

  ghost function Rule(): Preregistration
  {
    Preregistration(PRIMARY_FIELD, Maximize, BEFORE, AFTER - BEFORE, [0, 1, 2], {}, [], Some("root"), None)
  }

  ghost function RunOf(seed: int): RunResult
  {
    RunResult(seed, AFTER, 0, map[], RunGroups(seed, None, None))
  }

  ghost function Runs(): seq<RunResult> { [RunOf(0), RunOf(1), RunOf(2)] }

  ghost function Child(): Candidate
  {
    Candidate(Runs(), 0.0, Some("root"), Some(Digest(Rule())), false, None, None, "", "")
  }

  ghost function Promoted(): VerdictBundle
  {
    VerdictBundle("child", true, [], "", "", [0, 1, 2], [], Finite(AFTER), 0.0, Some(Digest(Rule())), map[PRIMARY_FIELD := Finite(AFTER)])
  }

  ghost function Opening(): seq<Row> { [Verdict(Root()), Filing(Rule())] }

  lemma {:induction false} SumOfSame(values: seq<real>, v: real)
    requires forall i :: 0 <= i < |values| ==> values[i] == v
    ensures Sum(values) == |values| as real * v
  {
    if values != [] {
      SumOfSame(values[..|values| - 1], v);
    }
  }

  lemma {:induction false} Alike(runs: seq<RunResult>, name: string, v: real)
    requires forall i :: 0 <= i < |runs| ==> runs[i].extra == map[] && runs[i].valMetric == v
    ensures |Recorded(runs, name)| == if name == PRIMARY_FIELD then |runs| else 0
    ensures forall i :: 0 <= i < |Recorded(runs, name)| ==> Recorded(runs, name)[i] == v
    ensures name == PRIMARY_FIELD ==> Reported(runs, name) && Judged(runs, name) == Recorded(runs, name)
    ensures |Metric(runs)| == |runs| && forall i :: 0 <= i < |runs| ==> Metric(runs)[i] == v
  {
    if runs != [] {
      Alike(runs[..|runs| - 1], name, v);
    }
  }

  lemma AlikeMeans(runs: seq<RunResult>, v: real)
    requires |runs| == 3 && forall i :: 0 <= i < |runs| ==> runs[i].extra == map[] && runs[i].valMetric == v
    ensures Reported(runs, PRIMARY_FIELD) && Unambiguous(runs, PRIMARY_FIELD)
    ensures Recorded(runs, PRIMARY_FIELD) != [] && Mean(Recorded(runs, PRIMARY_FIELD)) == v == JudgedMean(runs, PRIMARY_FIELD)
  {
    Alike(runs, PRIMARY_FIELD, v);
    SumOfSame(Recorded(runs, PRIMARY_FIELD), v);
  }

  lemma MeansOfRuns()
    ensures Reported(Runs(), PRIMARY_FIELD) && JudgedMean(Runs(), PRIMARY_FIELD) == AFTER
    ensures Records(Runs(), Promoted().metrics) && Unambiguous(Runs(), PRIMARY_FIELD)
  {
    forall name ensures (Recorded(Runs(), name) != [] <==> name == PRIMARY_FIELD) {
      Alike(Runs(), name, AFTER);
    }
    AlikeMeans(Runs(), AFTER);
  }

  lemma NoLottery(values: seq<real>, v: real)
    requires values == [v, v, v]
    ensures !SeedLottery(multiset(values))
  {
    var all := multiset(values);
    assert all == multiset{v, v, v};
    forall top | top in all ensures !Stands(top, all - multiset{top}) {
      assert v in all - multiset{top};
    }
  }

  lemma AlikeIsSound(c: Candidate, v: real)
    requires |c.runs| == 3 && c.cost <= MAX_USD
    requires forall i :: 0 <= i < |c.runs| ==> c.runs[i].extra == map[] && c.runs[i].valMetric == v && c.runs[i].overlapCount == 0
    ensures SoundRuns(c, None)
  {
    Alike(c.runs, PRIMARY_FIELD, v);
    var values := Metric(c.runs);
    assert values == [v, v, v];
    NoLottery(values, v);
  }

  lemma ChildIsSound(c: Candidate)
    requires c == Child()
    ensures SoundRuns(c, None)
  {
    AlikeIsSound(c, AFTER);
  }

  lemma RuleIsMetBy(runs: seq<RunResult>, p: Preregistration)
    requires p == Rule() && |runs| == 3 && Seeds(runs) == [0, 1, 2]
    requires Reported(runs, PRIMARY_FIELD) && JudgedMean(runs, PRIMARY_FIELD) == AFTER
    ensures Met(runs, p, map[PRIMARY_FIELD := BEFORE])
  {
  }

  lemma RuleIsMet()
    ensures Met(Runs(), Rule(), map[PRIMARY_FIELD := BEFORE])
  {
    MeansOfRuns();
    SeedsAre(Runs());
    assert Seeds(Runs()) == [0, 1, 2];
    RuleIsMetBy(Runs(), Rule());
  }

  lemma LookedUp(before: seq<Row>)
    requires before == Opening()
    ensures FirstVerdict(before, "child", None) && FirstFiling(before, Digest(Rule()), Some(1))
    ensures RecordedMetrics(before, "root", map[PRIMARY_FIELD := BEFORE])
  {
    assert before[1] == Filing(Rule()) && before[0] == Verdict(Root());
    assert NewestVerdict(before, 0, "root");
    assert Usable(Root().metrics) == map[PRIMARY_FIELD := BEFORE];
    assert FiledAt(before, 1, Digest(Rule()));
  }

  lemma Counted(before: seq<Row>)
    requires before == Opening()
    ensures FiledHashes(before) == {Digest(Rule())} && Attempts(before, Some("root")) == {1}
  {
    assert before[1] == Filing(Rule()) && before[0] == Verdict(Root());
    assert PromotedHashes(before) == {};
  }

  lemma Context(before: seq<Row>)
    requires before == Opening()
    ensures Preregistered(before, Child(), "child")
  {
    var ctx := PreregContext(Some(Rule()), false, {Digest(Rule())}, Some(Digest(Rule())), 1, map[PRIMARY_FIELD := BEFORE], Some(1), None);
    LookedUp(before);
    Counted(before);
    RuleIsMet();
    assert ContextOf(before, Child(), "child", ctx);
  }

  lemma PromotionEarned(before: seq<Row>)
    requires before == Opening()
    ensures Earned(before, Promoted(), Child()) && SoundRuns(Child(), None)
  {
    Context(before);
    MeansOfRuns();
    ChildIsSound(Child());
  }

  lemma OneVerdict(before: seq<Row>, b: VerdictBundle, c: Candidate)
    requires Honest(before) && b.Consistent() && Fresh(before, b.expId)
    requires b.promoted ==> Earned(before, b, c)
    ensures Honest(before + [Verdict(b)])
  {
    assert (before + [Verdict(b)])[..|before|] == before;
    HonestAndOneMore(before, Verdict(b));
  }

  lemma OpeningIsHonest()
    ensures Honest(Opening()) && Fresh(Opening(), "child")
  {
    OneVerdict([], Root(), Child());
    HonestAndOneMore([Verdict(Root())], Filing(Rule()));
    assert [] + [Verdict(Root())] == [Verdict(Root())];
    assert [Verdict(Root())] + [Filing(Rule())] == Opening();
  }

  lemma ChainOfOne(rows: seq<Row>, s: Step)
    requires Follows(rows, 0, s) && s.rule.primary == PRIMARY_FIELD && s.rule.direction == Maximize
    requires Unambiguous(s.who.runs, PRIMARY_FIELD)
    ensures Chain(rows, 0, [s], PRIMARY_FIELD, Maximize)
  {
    assert [s][..0] == [];
  }

  // An honest ledger can hold a promotion that cites its parent and improves on
  // it by exactly what it declared.
  lemma ImprovementsHappen(before: seq<Row>, book: seq<Row>)
    requires before == Opening() && book == before + [Verdict(Promoted())]
    ensures Honest(book) && Chain(book, 0, [Step(2, Child(), Rule())], PRIMARY_FIELD, Maximize)
    ensures PassedTheUsual(before, Promoted())
    ensures Promoted().metrics[PRIMARY_FIELD].value == Root().metrics[PRIMARY_FIELD].value + Rule().minimumEffect
  {
    OpeningIsHonest();
    PromotionEarned(before);
    OneVerdict(before, Promoted(), Child());
    assert book[..2] == before;
    MeansOfRuns();
    ChainOfOne(book, Step(2, Child(), Rule()));
  }
}
