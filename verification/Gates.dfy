// The gates that judge a run's evidence on its own: leakage, reproducibility,
// noise, cost, and whether one lucky seed carries the result.
module Gates {
  import opened Prelude
  import opened Sorting
  import opened Metrics

  // -- no_leakage --------------------------------------------------------------------

  function TotalOverlap(runs: seq<RunResult>): nat
  {
    if runs == [] then 0 else TotalOverlap(runs[..|runs| - 1]) + runs[|runs| - 1].overlapCount
  }

  predicate GateNoLeakage(runs: seq<RunResult>)
  {
    TotalOverlap(runs) == 0
  }

  // No overlap in total is no overlap on any single run.
  lemma {:induction false} NoLeakageExactlyWhen(runs: seq<RunResult>)
    ensures GateNoLeakage(runs) <==> forall i :: 0 <= i < |runs| ==> runs[i].overlapCount == 0
  {
    if runs != [] {
      var before := runs[..|runs| - 1];
      NoLeakageExactlyWhen(before);
      assert runs == before + [runs[|runs| - 1]];
    }
  }

  // -- reproducible ------------------------------------------------------------------

  const SAME_SEED_TOLERANCE: real := 0.000001

  ghost function ValuesAt(runs: seq<RunResult>, seed: int): seq<real>
  {
    if runs == [] then []
    else
      var last := runs[|runs| - 1];
      ValuesAt(runs[..|runs| - 1], seed) + if last.seed == seed then [last.valMetric] else []
  }

  lemma {:induction false} ValuesAre(runs: seq<RunResult>, seed: int)
    ensures forall v :: v in ValuesAt(runs, seed) <==> exists i :: 0 <= i < |runs| && runs[i].seed == seed && runs[i].valMetric == v
  {
    if runs != [] {
      var before, last := runs[..|runs| - 1], runs[|runs| - 1];
      ValuesAre(before, seed);
      forall v ensures v in ValuesAt(runs, seed) <==> exists i :: 0 <= i < |runs| && runs[i].seed == seed && runs[i].valMetric == v {
        if v in ValuesAt(before, seed) {
          var i :| 0 <= i < |before| && before[i].seed == seed && before[i].valMetric == v;
          assert runs[i].valMetric == v;
        }
        if i :| 0 <= i < |runs| && runs[i].seed == seed && runs[i].valMetric == v {
          if i < |before| {
            assert before[i].valMetric == v;
          }
        }
      }
    }
  }

  method Spread(values: seq<real>) returns (spread: real)
    requires values != []
    ensures forall x, y :: x in values && y in values ==> x - y <= spread
    ensures exists x, y :: x in values && y in values && x - y == spread
  {
    var least, most := values[0], values[0];
    for i := 1 to |values|
      invariant least in values && most in values
      invariant forall j :: 0 <= j < i ==> least <= values[j] <= most
    {
      if values[i] < least {
        least := values[i];
      } else if values[i] > most {
        most := values[i];
      }
    }
    spread := most - least;
    assert most in values && least in values && most - least == spread;
  }

  // Two runs of one seed agree.
  ghost predicate Agreeing(runs: seq<RunResult>)
  {
    forall i, j :: 0 <= i < |runs| && 0 <= j < |runs| && runs[i].seed == runs[j].seed ==>
      runs[i].valMetric - runs[j].valMetric <= 0.000001
  }

  method GateReproducible(runs: seq<RunResult>) returns (ok: bool)
    ensures ok <==> Agreeing(runs)
  {
    var bySeed: map<int, seq<real>> := map[];
    for i := 0 to |runs|
      invariant forall s :: s in bySeed ==> bySeed[s] == ValuesAt(runs[..i], s)
      invariant forall s :: s !in bySeed ==> ValuesAt(runs[..i], s) == []
    {
      assert runs[..i + 1][..i] == runs[..i];
      var s := runs[i].seed;
      bySeed := bySeed[s := (if s in bySeed then bySeed[s] else []) + [runs[i].valMetric]];
    }
    assert runs[..|runs|] == runs;
    AgreeingExactlyWhen(runs);
    ok := AllGathered(runs, bySeed);
  }

  method AllGathered(runs: seq<RunResult>, bySeed: map<int, seq<real>>) returns (ok: bool)
    requires forall s :: s in bySeed ==> bySeed[s] == ValuesAt(runs, s)
    requires forall s :: s !in bySeed ==> ValuesAt(runs, s) == []
    ensures ok <==> forall i :: 0 <= i < |runs| ==> !Scattered(ValuesAt(runs, runs[i].seed))
  {
    ok := true;
    for i := 0 to |runs|
      invariant ok <==> forall j :: 0 <= j < i ==> !Scattered(ValuesAt(runs, runs[j].seed))
    {
      ValuesAre(runs, runs[i].seed);
      assert runs[i].valMetric in ValuesAt(runs, runs[i].seed);
      var spread := Spread(bySeed[runs[i].seed]);
      ok := ok && spread <= SAME_SEED_TOLERANCE;
    }
  }

  ghost predicate Scattered(values: seq<real>)
  {
    exists x, y :: x in values && y in values && x - y > SAME_SEED_TOLERANCE
  }

  lemma AgreeingExactlyWhen(runs: seq<RunResult>)
    ensures Agreeing(runs) <==> forall i :: 0 <= i < |runs| ==> !Scattered(ValuesAt(runs, runs[i].seed))
  {
    if i :| 0 <= i < |runs| && Scattered(ValuesAt(runs, runs[i].seed)) {
      var s := runs[i].seed;
      ValuesAre(runs, s);
      var x, y :| x in ValuesAt(runs, s) && y in ValuesAt(runs, s) && x - y > SAME_SEED_TOLERANCE;
      var j :| 0 <= j < |runs| && runs[j].seed == s && runs[j].valMetric == x;
      var k :| 0 <= k < |runs| && runs[k].seed == s && runs[k].valMetric == y;
      assert !Agreeing(runs);
    } else {
      forall i, j | 0 <= i < |runs| && 0 <= j < |runs| && runs[i].seed == runs[j].seed
        ensures runs[i].valMetric - runs[j].valMetric <= SAME_SEED_TOLERANCE
      {
        var s := runs[i].seed;
        ValuesAre(runs, s);
        assert runs[i].valMetric in ValuesAt(runs, s) && runs[j].valMetric in ValuesAt(runs, s);
      }
    }
  }

  // -- seed_variance and cost ----------------------------------------------------------

  const MIN_SEEDS: nat := 3
  const MAX_USD: real := 25.0

  function Metric(runs: seq<RunResult>): seq<real>
  {
    if runs == [] then [] else Metric(runs[..|runs| - 1]) + [runs[|runs| - 1].valMetric]
  }

  lemma {:induction false} OneMetricEach(runs: seq<RunResult>)
    ensures |Metric(runs)| == |runs| && forall i :: 0 <= i < |runs| ==> Metric(runs)[i] == runs[i].valMetric
  {
    if runs != [] {
      OneMetricEach(runs[..|runs| - 1]);
    }
  }

  // One more squared distance from a centre.
  function Further(total: real, x: real, centre: real): real
  {
    total + (x - centre) * (x - centre)
  }

  function SquaresAround(values: seq<real>, centre: real): real
  {
    if values == [] then 0.0
    else Further(SquaresAround(values[..|values| - 1], centre), values[|values| - 1], centre)
  }

  function Variance(values: seq<real>): real
  {
    if |values| <= 1 then 0.0 else SquaresAround(values, Mean(values)) / (|values| - 1) as real
  }

  // The gain exceeds a noise band of two pooled standard errors. Both sides are
  // compared squared, so no root is taken; an empty baseline has no mean to beat.
  predicate GateSeedVariance(values: seq<real>, baseline: Option<seq<real>>)
  {
    && |values| >= MIN_SEEDS
    && (baseline.Some? ==>
          && baseline.value != []
          && var delta := Mean(values) - Mean(baseline.value);
             delta > 0.0 && delta * delta * |values| as real > 4.0 * (Variance(values) + Variance(baseline.value)))
  }

  // What every two of the values differ by, squared and added up.
  ghost function PairSquares(values: seq<real>): real
  {
    if values == [] then 0.0
    else PairSquares(values[..|values| - 1]) + SquaresFrom(values[..|values| - 1], values[|values| - 1])
  }

  ghost function SquaresFrom(values: seq<real>, x: real): real
  {
    Sum(seq(|values|, i requires 0 <= i < |values| => (values[i] - x) * (values[i] - x)))
  }

  lemma {:induction false} SquaresAroundIs(values: seq<real>, c: real)
    ensures SquaresAround(values, c) == SquaresFrom(values, c)
  {
    var squares := seq(|values|, i requires 0 <= i < |values| => (values[i] - c) * (values[i] - c));
    if values != [] {
      var n := |values| - 1;
      var before := values[..n];
      SquaresAroundIs(before, c);
      var earlier := seq(|before|, i requires 0 <= i < |before| => (before[i] - c) * (before[i] - c));
      assert forall i :: 0 <= i < n ==> squares[..n][i] == earlier[i];
      assert squares[..n] == earlier;
    }
  }

  // A sample's size, sum and sum of squares, and what they say of squared distances.
  datatype Moments = Moments(n: real, total: real, squares: real)

  ghost function SumOfSquares(values: seq<real>): real
  {
    if values == [] then 0.0 else SumOfSquares(values[..|values| - 1]) + values[|values| - 1] * values[|values| - 1]
  }

  ghost function MomentsOf(values: seq<real>): Moments
  {
    Moments(|values| as real, Sum(values), SumOfSquares(values))
  }

  ghost function OneMore(m: Moments, x: real): Moments
  {
    Moments(m.n + 1.0, m.total + x, m.squares + x * x)
  }

  ghost predicate Around(m: Moments, c: real, around: real)
  {
    around == m.squares - 2.0 * (c * m.total) + m.n * (c * c)
  }

  ghost predicate Paired(m: Moments, pairs: real)
  {
    pairs == m.n * m.squares - m.total * m.total
  }

  lemma OneMoreMoment(values: seq<real>)
    requires values != []
    ensures MomentsOf(values) == OneMore(MomentsOf(values[..|values| - 1]), values[|values| - 1])
  {
  }

  lemma OneMoreAround(m: Moments, c: real, around: real, x: real)
    requires Around(m, c, around)
    ensures Around(OneMore(m, x), c, Further(around, x, c))
  {
  }

  lemma OneMorePaired(m: Moments, pairs: real, around: real, x: real)
    requires Around(m, x, around) && Paired(m, pairs)
    ensures Paired(OneMore(m, x), pairs + around)
  {
  }

  lemma {:induction false} AroundAny(values: seq<real>, c: real)
    ensures Around(MomentsOf(values), c, SquaresAround(values, c))
  {
    if values != [] {
      var before, x := values[..|values| - 1], values[|values| - 1];
      AroundAny(before, c);
      OneMoreAround(MomentsOf(before), c, SquaresAround(before, c), x);
      OneMoreMoment(values);
    }
  }

  lemma {:induction false} PairedAny(values: seq<real>)
    ensures Paired(MomentsOf(values), PairSquares(values))
  {
    if values != [] {
      var before, x := values[..|values| - 1], values[|values| - 1];
      PairedAny(before);
      AroundAny(before, x);
      SquaresAroundIs(before, x);
      OneMorePaired(MomentsOf(before), PairSquares(before), SquaresAround(before, x), x);
      OneMoreMoment(values);
    }
  }

  ghost function Quotient(a: real, b: real): real
    requires b != 0.0
  {
    a / b
  }

  lemma MeanAndVariance(values: seq<real>)
    requires |values| >= 2
    ensures var n := |values| as real;
            Mean(values) == Quotient(Sum(values), n) && Variance(values) == Quotient(SquaresAround(values, Mean(values)), n - 1.0)
  {
  }

  lemma Divides(a: real, b: real, q: real)
    requires b != 0.0 && q == a / b
    ensures q * b == a
  {
  }

  lemma Centred(m: Moments, c: real, around: real, pairs: real)
    requires m.n > 0.0 && c * m.n == m.total && Around(m, c, around) && Paired(m, pairs)
    ensures m.n * around == pairs
  {
    assert m.n * (c * c) == c * m.total;
    assert m.n * (c * m.total) == m.total * m.total;
  }

  ghost predicate LawOfPairs(n: real, variance: real, pairs: real)
  {
    n * ((n - 1.0) * variance) == pairs
  }

  lemma OfPairs(m: Moments, c: real, around: real, pairs: real, variance: real)
    requires m.n >= 2.0 && c == Quotient(m.total, m.n) && variance == Quotient(around, m.n - 1.0)
    requires Around(m, c, around) && Paired(m, pairs)
    ensures LawOfPairs(m.n, variance, pairs)
  {
    Divides(m.total, m.n, c);
    Centred(m, c, around, pairs);
    Divides(around, m.n - 1.0, variance);
    assert m.n * ((m.n - 1.0) * variance) == m.n * around;
  }

  // The sample variance, without a mean: n * (n - 1) times it is what every two
  // values differ by, squared and added up.
  lemma VarianceIsOfPairs(values: seq<real>)
    requires |values| >= 2
    ensures LawOfPairs(|values| as real, Variance(values), PairSquares(values))
  {
    var mean, variance := Mean(values), Variance(values);
    MeanAndVariance(values);
    AroundAny(values, mean);
    PairedAny(values);
    OfPairs(MomentsOf(values), mean, SquaresAround(values, mean), PairSquares(values), variance);
  }

  // A gain of more than two standard errors of the difference, on three values or
  // more. The spread of a sample is taken from the differences of its values.
  ghost predicate AboveNoise(values: seq<real>, baseline: Option<seq<real>>)
  {
    && |values| >= 3
    && (baseline.Some? ==>
          && baseline.value != []
          && Beats(|values| as real, Mean(values) - Mean(baseline.value), SpreadOf(values) + SpreadOf(baseline.value)))
  }

  ghost predicate Beats(n: real, gain: real, spread: real)
  {
    gain > 0.0 && n * (gain * gain) > (2.0 * 2.0) * spread
  }

  ghost function SpreadOf(values: seq<real>): real
  {
    if |values| <= 1 then 0.0 else PerPair(|values| as real, PairSquares(values))
  }

  ghost function PerPair(n: real, pairs: real): real
    requires n >= 2.0
  {
    pairs / (n * (n - 1.0))
  }

  lemma SpreadIsVariance(values: seq<real>)
    ensures Variance(values) == SpreadOf(values)
  {
    if |values| >= 2 {
      VarianceIsOfPairs(values);
      PerPairIs(|values| as real, Variance(values), PairSquares(values));
    }
  }

  lemma PerPairIs(n: real, variance: real, pairs: real)
    requires n >= 2.0 && LawOfPairs(n, variance, pairs)
    ensures variance == PerPair(n, pairs)
  {
    var d := n * (n - 1.0);
    assert d > 0.0 && d * variance == pairs;
  }

  lemma BeatsIs(n: real, gain: real, spread: real)
    ensures Beats(n, gain, spread) <==> gain > 0.0 && gain * gain * n > 4.0 * spread
  {
    assert gain * gain * n == n * (gain * gain);
  }

  lemma SeedVarianceExactlyWhen(values: seq<real>, baseline: Option<seq<real>>)
    ensures GateSeedVariance(values, baseline) <==> AboveNoise(values, baseline)
  {
    if baseline.Some? && baseline.value != [] && |values| >= 3 {
      SpreadIsVariance(values);
      SpreadIsVariance(baseline.value);
      BeatsIs(|values| as real, Mean(values) - Mean(baseline.value), SpreadOf(values) + SpreadOf(baseline.value));
    }
  }

  // -- no_single_seed_dominance ---------------------------------------------------------

  const NOISE_FLOOR: real := 0.000000001

  function Down(x: real): real { -x }

  function Larger(a: real, b: real): real { if a >= b then a else b }

  predicate GateNoSingleSeedDominance(values: seq<real>)
  {
    var sorted := SortBy(values, Down);
    SortedLength(values, Down);
    && |values| >= 3
    && var gap := sorted[0] - sorted[1];
       var spread := sorted[1] - sorted[|sorted| - 1];
       gap <= NOISE_FLOOR || gap <= Larger(spread, NOISE_FLOOR)
  }

  // One value stands further above every other than the others lie apart.
  ghost predicate Stands(top: real, rest: multiset<real>)
  {
    && (forall x :: x in rest ==> top - x > 0.000000001)
    && forall x, y, z :: x in rest && y in rest && z in rest ==> top - x > y - z
  }

  ghost predicate SeedLottery(values: multiset<real>)
  {
    exists top :: top in values && Stands(top, values - multiset{top})
  }

  // The gate passes on three values or more unless one of them is a seed lottery,
  // in whatever order the runs came.
  lemma DominanceExactlyWhen(values: seq<real>)
    ensures GateNoSingleSeedDominance(values) <==> |values| >= 3 && !SeedLottery(multiset(values))
  {
    Sorted(values, Down);
    var sorted := SortBy(values, Down);
    if |values| >= 3 {
      TopOfSorted(sorted);
      assert multiset(sorted) == multiset(values);
    }
  }

  lemma TopOfSorted(sorted: seq<real>)
    requires |sorted| >= 3 && Ascending(sorted, Down)
    ensures SeedLottery(multiset(sorted)) <==>
            sorted[0] - sorted[1] > NOISE_FLOOR && sorted[0] - sorted[1] > sorted[1] - sorted[|sorted| - 1]
  {
    LotteryIsAtTheTop(sorted);
    StandsAboveSorted(sorted[0], sorted[1..]);
  }

  lemma LotteryIsAtTheTop(sorted: seq<real>)
    requires |sorted| >= 3 && Ascending(sorted, Down)
    ensures SeedLottery(multiset(sorted)) <==> Stands(sorted[0], multiset(sorted[1..]))
  {
    var all := multiset(sorted);
    HeadAndRest(sorted);
    if SeedLottery(all) {
      var other :| other in all && Stands(other, all - multiset{other});
      OnlyTheTopStands(sorted, other);
    }
  }

  lemma HeadAndRest(s: seq<real>)
    requires s != []
    ensures multiset(s) - multiset{s[0]} == multiset(s[1..]) && s[0] in multiset(s)
  {
    assert s == [s[0]] + s[1..];
  }

  lemma OnlyTheTopStands(sorted: seq<real>, other: real)
    requires |sorted| >= 3 && Ascending(sorted, Down) && other in multiset(sorted)
    requires Stands(other, multiset(sorted) - multiset{other})
    ensures other == sorted[0]
  {
    var i :| 0 <= i < |sorted| && sorted[i] == other;
    assert Down(sorted[0]) <= Down(sorted[i]);
    var first, rest := sorted[0], multiset(sorted) - multiset{other};
    assert first in multiset(sorted);
    assert first != other ==> first in rest;
  }

  lemma StandsAboveSorted(top: real, rest: seq<real>)
    requires |rest| >= 2 && Ascending(rest, Down)
    ensures Stands(top, multiset(rest)) <==> top - rest[0] > NOISE_FLOOR && top - rest[0] > rest[0] - rest[|rest| - 1]
  {
    var n := |rest| - 1;
    assert rest[0] in multiset(rest) && rest[n] in multiset(rest);
    forall x | x in multiset(rest) ensures rest[n] <= x <= rest[0] {
      var i :| 0 <= i < |rest| && rest[i] == x;
      assert Down(rest[0]) <= Down(rest[i]) <= Down(rest[n]);
    }
  }
}
