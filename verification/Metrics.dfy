// Run records and the two ways their metrics are averaged: by the gates, and
// into the verdict that later gates read as the parent's.
module Metrics {
  import opened Prelude
  import opened SessionFolds

  // A value in a run's free-form part. Booleans count as numbers to one reader
  // and not to the other.
  datatype Extra = Num(value: real) | Truth(holds: bool) | Text

  datatype RunResult = RunResult(
    seed: int, valMetric: real, overlapCount: nat, extra: map<string, Extra>, groups: RunGroups)

  const PRIMARY_FIELD := "val_metric"

  function AsNumber(b: bool): real { if b then 1.0 else 0.0 }

  // A named metric off one run, or None.
  function MetricValue(r: RunResult, name: string): Option<real>
  {
    if name == PRIMARY_FIELD then Some(r.valMetric)
    else if name !in r.extra then None
    else
      match r.extra[name]
      case Num(value) => Some(value)
      case Truth(b) => Some(AsNumber(b))
      case Text => None
  }

  predicate Reported(runs: seq<RunResult>, name: string)
  {
    forall i :: 0 <= i < |runs| ==> MetricValue(runs[i], name).Some?
  }

  // What the gates judge: one value per run.
  function Judged(runs: seq<RunResult>, name: string): seq<real>
    requires Reported(runs, name)
  {
    if runs == [] then [] else Judged(runs[..|runs| - 1], name) + [MetricValue(runs[|runs| - 1], name).value]
  }

  function Numeric(r: RunResult, name: string): seq<real>
  {
    if name in r.extra && r.extra[name].Num? then [r.extra[name].value] else []
  }

  // What one run adds to a recorded metric.
  function Adds(r: RunResult, name: string): seq<real>
  {
    (if name == PRIMARY_FIELD then [r.valMetric] else []) + Numeric(r, name)
  }

  // What the verdict records, before averaging.
  ghost function Recorded(runs: seq<RunResult>, name: string): seq<real>
  {
    if runs == [] then [] else Recorded(runs[..|runs| - 1], name) + Adds(runs[|runs| - 1], name)
  }

  function Sum(values: seq<real>): real
  {
    if values == [] then 0.0 else Sum(values[..|values| - 1]) + values[|values| - 1]
  }

  function Mean(values: seq<real>): real
    requires values != []
  {
    Sum(values) / |values| as real
  }

  // Every name some run adds a number under.
  ghost predicate Adding(runs: seq<RunResult>, name: string)
  {
    exists i :: 0 <= i < |runs| && Adds(runs[i], name) != []
  }

  lemma {:induction false} RecordedWhenAdded(runs: seq<RunResult>, name: string)
    ensures Recorded(runs, name) != [] <==> Adding(runs, name)
  {
    if runs != [] {
      var before := runs[..|runs| - 1];
      RecordedWhenAdded(before, name);
      if Adding(before, name) {
        var i :| 0 <= i < |before| && Adds(before[i], name) != [];
        assert Adds(runs[i], name) != [];
      }
      if Adding(runs, name) && Adds(runs[|runs| - 1], name) == [] {
        var i :| 0 <= i < |runs| && Adds(runs[i], name) != [];
        assert Adds(before[i], name) != [];
      }
    }
  }

  // What the gates take from a run: val_metric is the run's own, a number is itself,
  // a boolean is one or zero, and text and absent names are nothing.
  lemma MetricValueMeans(r: RunResult, name: string, x: real)
    ensures MetricValue(r, name) == Some(x) <==>
              if name == "val_metric" then x == r.valMetric
              else name in r.extra &&
                   match r.extra[name]
                   case Num(value) => x == value
                   case Truth(b) => (b && x == 1.0) || (!b && x == 0.0)
                   case Text => false
  {
  }

  lemma {:induction false} JudgedMeans(runs: seq<RunResult>, name: string)
    requires Reported(runs, name)
    ensures |Judged(runs, name)| == |runs|
    ensures forall i :: 0 <= i < |runs| ==> MetricValue(runs[i], name) == Some(Judged(runs, name)[i])
  {
    if runs != [] {
      JudgedMeans(runs[..|runs| - 1], name);
    }
  }

  ghost predicate Totals(runs: seq<RunResult>, totals: map<string, seq<real>>)
  {
    && (forall name :: name in totals <==> Recorded(runs, name) != [])
    && forall name :: name in totals ==> totals[name] == Recorded(runs, name)
  }

  method Total(runs: seq<RunResult>) returns (totals: map<string, seq<real>>)
    ensures Totals(runs, totals)
  {
    totals := map[];
    for i := 0 to |runs|
      invariant Totals(runs[..i], totals)
    {
      assert runs[..i + 1][..i] == runs[..i] && runs[..i + 1][i] == runs[i];
      var r := runs[i];
      var named := set name | name in r.extra.Keys && r.extra[name].Num?;
      totals := map name | name in totals.Keys + named + {PRIMARY_FIELD} && (name in totals || Adds(r, name) != []) ::
        (if name in totals then totals[name] else []) + Adds(r, name);
    }
    assert runs[..|runs|] == runs;
  }

  // The mean of every metric some run reported, over the runs that did.
  method MeanMetrics(runs: seq<RunResult>) returns (means: map<string, real>)
    ensures IsMeans(runs, means)
  {
    var totals := Total(runs);
    means := map name | name in totals :: if totals[name] == [] then 0.0 else Mean(totals[name]);
  }

  ghost predicate IsMeans(runs: seq<RunResult>, means: map<string, real>)
  {
    && (forall name :: name in means <==> Recorded(runs, name) != [])
    && forall name :: name in means ==> means[name] == Mean(Recorded(runs, name))
  }

  // Nothing makes the recorded and the judged values differ.
  ghost predicate Unambiguous(runs: seq<RunResult>, name: string)
  {
    forall i :: 0 <= i < |runs| ==> Plain(runs[i], name)
  }

  ghost predicate Plain(r: RunResult, name: string)
  {
    if name == PRIMARY_FIELD then Numeric(r, name) == [] else name in r.extra && r.extra[name].Num?
  }

  lemma OneRunMore(before: seq<RunResult>, r: RunResult, name: string)
    ensures Unambiguous(before + [r], name) <==> Unambiguous(before, name) && Plain(r, name)
  {
    assert (before + [r])[|before|] == r;
    assert forall i :: 0 <= i < |before| ==> (before + [r])[i] == before[i];
  }

  lemma {:induction false} AtLeastAsMany(runs: seq<RunResult>, name: string)
    requires Reported(runs, name)
    ensures |Judged(runs, name)| == |runs|
    ensures name == PRIMARY_FIELD ==> |Recorded(runs, name)| >= |runs|
    ensures name != PRIMARY_FIELD ==> |Recorded(runs, name)| <= |runs|
  {
    if runs != [] {
      AtLeastAsMany(runs[..|runs| - 1], name);
    }
  }

  // A metric's recorded values are its judged values exactly when no run hides a
  // second number under val_metric, and no judged value is a boolean.
  lemma {:induction false} RecordedIsJudgedExactlyWhen(runs: seq<RunResult>, name: string)
    requires Reported(runs, name)
    ensures Recorded(runs, name) == Judged(runs, name) <==> Unambiguous(runs, name)
  {
    if runs != [] {
      var n := |runs| - 1;
      var before, r := runs[..n], runs[n];
      AtLeastAsMany(before, name);
      RecordedIsJudgedExactlyWhen(before, name);
      assert runs == before + [r];
      OneRunMore(before, r, name);
      SameEnds(Recorded(before, name), Adds(r, name), Judged(before, name), MetricValue(r, name).value);
      assert Adds(r, name) == [MetricValue(r, name).value] <==> Plain(r, name);
    }
  }

  lemma SameEnds(a: seq<real>, x: seq<real>, b: seq<real>, y: real)
    requires (|a| >= |b| && |x| >= 1) || (|a| <= |b| && |x| <= 1)
    ensures a + x == b + [y] <==> a == b && x == [y]
  {
    if a + x == b + [y] {
      assert |x| == 1;
      assert (a + x)[..|a|] == a && (b + [y])[..|b|] == b;
      assert (a + x)[|a|] == x[0];
    }
  }

  // Where it fails: one run, judged by its own number, recorded at the mean of that
  // and another.
  lemma ASecondNumberMovesTheBaseline(judged: real, hidden: real, groups: RunGroups)
    ensures var runs := [RunResult(0, judged, 0, map[PRIMARY_FIELD := Num(hidden)], groups)];
            && Recorded(runs, PRIMARY_FIELD) == [judged, hidden] && Judged(runs, PRIMARY_FIELD) == [judged]
            && Mean(Recorded(runs, PRIMARY_FIELD)) == (judged + hidden) / 2.0
  {
    var runs := [RunResult(0, judged, 0, map[PRIMARY_FIELD := Num(hidden)], groups)];
    assert runs[..0] == [];
    assert Recorded(runs, PRIMARY_FIELD) == [judged] + [hidden];
    SumOfPair(judged, hidden);
  }

  lemma SumOfPair(a: real, b: real)
    ensures Sum([a, b]) == a + b
  {
    assert [a][..0] == [] && Sum([a]) == a;
    assert [a, b][..1] == [a];
  }
}
