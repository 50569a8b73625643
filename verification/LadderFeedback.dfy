// Scoring against hidden labels, and how much of a score an agent is told.
module LadderFeedback {
  import opened Prelude

  datatype SubmissionRefused = Empty | UnknownIds | MissingIds

  // Ground truth. Only `Score` reads it.
  class LabelStore {
    const labels: map<string, int>

    constructor (labels: map<string, int>)
      requires labels != map[]
      ensures this.labels == labels
    {
      this.labels := labels;
    }

    // The fraction answered correctly, or a refusal of anything but a complete
    // answer to exactly this set.
    method Score(predictions: map<string, int>) returns (r: Result<real, SubmissionRefused>)
      requires labels != map[]
      ensures r.Ok? <==> predictions.Keys == labels.Keys
      ensures r.Ok? ==> 0.0 <= r.value <= 1.0 && r.value * |labels| as real == |Right(predictions)| as real
      ensures r == Refused(Empty) <==> predictions == map[]
      ensures r == Refused(UnknownIds) <==> predictions != map[] && !(predictions.Keys <= labels.Keys)
    {
      if predictions == map[] {
        return Refused(Empty);
      }
      assert predictions.Keys != {} by {
        var id :| id in predictions;
      }
      if !(predictions.Keys <= labels.Keys) {
        return Refused(UnknownIds);
      }
      if !(labels.Keys <= predictions.Keys) {
        return Refused(MissingIds);
      }
      var correct := CountRight(predictions);
      Fraction(Right(predictions), labels.Keys);
      r := Ok(correct as real / |labels| as real);
    }

    ghost function Right(predictions: map<string, int>): set<string>
    {
      set id | id in labels && id in predictions && predictions[id] == labels[id]
    }

    method CountRight(predictions: map<string, int>) returns (correct: nat)
      requires predictions.Keys == labels.Keys
      ensures correct == |Right(predictions)|
    {
      correct := 0;
      var left := labels.Keys;
      ghost var right := Right(predictions);
      while left != {}
        invariant left <= labels.Keys && correct == |right - left|
      {
        var id :| id in left;
        OneFewer(right, left, id);
        if predictions[id] == labels[id] {
          correct := correct + 1;
        }
        left := left - {id};
      }
      assert right - left == right;
    }
  }

  lemma OneFewer(part: set<string>, left: set<string>, id: string)
    requires id in left
    ensures |part - (left - {id})| == |part - left| + (if id in part then 1 else 0)
  {
    assert part - (left - {id}) == part - left + (if id in part then {id} else {});
  }

  lemma Fraction(part: set<string>, whole: set<string>)
    requires part <= whole && whole != {}
    ensures |whole| > 0 && 0.0 <= |part| as real / |whole| as real <= 1.0
  {
    assert whole == part + (whole - part);
  }

  datatype LadderAnswer = LadderAnswer(improved: bool, value: Option<real>)

  // What one report does: the incumbent after it, and what the agent learns.
  ghost function Incumbent(step: real, best: Option<real>, value: real): Option<real>
  {
    if best.None? || value > best.value + step then Some(value) else best
  }

  ghost predicate Discloses(step: real, best: Option<real>, value: real)
  {
    best.None? || value > best.value + step
  }

  class Ladder {
    const step: real
    var best: Option<real>

    constructor (step: real, best: Option<real>)
      requires step > 0.0
      ensures this.step == step && this.best == best
    {
      this.step, this.best := step, best;
    }

    method Report(value: real) returns (answer: LadderAnswer)
      modifies this
      ensures best == Incumbent(step, old(best), value)
      ensures answer == if Discloses(step, old(best), value) then LadderAnswer(true, Some(value)) else LadderAnswer(false, None)
    {
      if best.None? {
        best := Some(value);
        return LadderAnswer(true, Some(value));
      }
      if value > best.value + step {
        best := Some(value);
        return LadderAnswer(true, Some(value));
      }
      return LadderAnswer(false, None);
    }

    // A whole sequence of submissions.
    method ReportAll(values: seq<real>) returns (answers: seq<LadderAnswer>)
      modifies this
      ensures best == After(step, old(best), values)
      ensures answers == Transcript(step, old(best), values)
    {
      answers := [];
      for i := 0 to |values|
        invariant best == After(step, old(best), values[..i])
        invariant answers == Transcript(step, old(best), values[..i])
      {
        assert values[..i + 1][..i] == values[..i];
        var answer := Report(values[i]);
        answers := answers + [answer];
      }
      assert values[..|values|] == values;
    }
  }

  ghost function After(step: real, best: Option<real>, values: seq<real>): Option<real>
  {
    if values == [] then best
    else Incumbent(step, After(step, best, values[..|values| - 1]), values[|values| - 1])
  }

  ghost function Transcript(step: real, best: Option<real>, values: seq<real>): seq<LadderAnswer>
  {
    if values == [] then []
    else
      var before, last := values[..|values| - 1], values[|values| - 1];
      Transcript(step, best, before) +
      [if Discloses(step, After(step, best, before), last) then LadderAnswer(true, Some(last)) else LadderAnswer(false, None)]
  }

  ghost function Disclosures(answers: seq<LadderAnswer>): nat
  {
    if answers == [] then 0
    else Disclosures(answers[..|answers| - 1]) + if answers[|answers| - 1].improved then 1 else 0
  }

  // The incumbent is the one it started from or one of the values seen, so it is
  // never above the best of them, and it never falls.
  lemma {:induction false} IncumbentWasSeen(step: real, best: Option<real>, values: seq<real>)
    requires step > 0.0
    ensures var now := After(step, best, values);
            && (now.None? <==> best.None? && values == [])
            && (now == best || (now.Some? && now.value in values))
            && (best.Some? ==> best.value <= now.value)
  {
    if values != [] {
      var before, last := values[..|values| - 1], values[|values| - 1];
      IncumbentWasSeen(step, best, before);
      assert last in values;
      assert forall v :: v in before ==> v in values;
    }
  }

  // No value seen is more than a step above the incumbent.
  lemma {:induction false} WithinAStepOfTheBest(step: real, best: Option<real>, values: seq<real>, i: nat)
    requires step > 0.0 && i < |values|
    ensures After(step, best, values).Some? && values[i] <= After(step, best, values).value + step
  {
    var before := values[..|values| - 1];
    IncumbentWasSeen(step, best, before);
    if i < |before| {
      WithinAStepOfTheBest(step, best, before, i);
      assert before[i] == values[i];
    }
  }

  // Every disclosure raises the incumbent by more than a step, except the one that
  // sets it on a ladder that starts empty.
  lemma {:induction false} EachDisclosureCostsAStep(step: real, best: Option<real>, values: seq<real>)
    requires step > 0.0 && (best.Some? || values != [])
    ensures var first := if best.Some? then best.value else values[0];
            var d := Disclosures(Transcript(step, best, values)) + if best.Some? then 1 else 0;
            After(step, best, values).Some? && Climbed(first, step, d, After(step, best, values).value)
  {
    if values != [] {
      var before, last := values[..|values| - 1], values[|values| - 1];
      IncumbentWasSeen(step, best, before);
      OneAnswerMore(step, best, values);
      if best.Some? || before != [] {
        EachDisclosureCostsAStep(step, best, before);
      }
    }
  }

  // The height of that many steps.
  ghost function Rise(d: nat, step: real): real
  {
    if d == 0 then 0.0 else Rise(d - 1, step) + step
  }

  lemma {:induction false} RiseIsAProduct(d: nat, step: real)
    ensures Rise(d, step) == d as real * step
  {
    if d > 0 {
      RiseIsAProduct(d - 1, step);
    }
  }

  ghost predicate Climbed(first: real, step: real, d: nat, now: real)
  {
    d >= 1 && first + Rise(d - 1, step) <= now
  }

  lemma OneAnswerMore(step: real, best: Option<real>, values: seq<real>)
    requires values != []
    ensures var before, last := values[..|values| - 1], values[|values| - 1];
            Disclosures(Transcript(step, best, values)) ==
            Disclosures(Transcript(step, best, before)) + if Discloses(step, After(step, best, before), last) then 1 else 0
  {
    var t, t0 := Transcript(step, best, values), Transcript(step, best, values[..|values| - 1]);
    assert t[..|t| - 1] == t0;
  }

  // How often scores between 0 and 1 can be handed back: at most 1 / step + 1 times
  // from an empty ladder, and (1 - incumbent) / step times from one that starts
  // with an incumbent.
  ghost predicate FewEnough(step: real, best: Option<real>, d: nat)
  {
    d == 0 || d as real * step <= if best.Some? then 1.0 - best.value else 1.0 + step
  }

  // However many submissions are made and however they adapt.
  lemma DisclosureBound(step: real, best: Option<real>, values: seq<real>)
    requires step > 0.0 && forall v :: v in values ==> 0.0 <= v <= 1.0
    ensures FewEnough(step, best, Disclosures(Transcript(step, best, values)))
  {
    NoDisclosureNoMove(step, best, values);
    if Disclosures(Transcript(step, best, values)) > 0 {
      EachDisclosureCostsAStep(step, best, values);
      assert values[0] in values;
      var first := if best.Some? then best.value else values[0];
      Capped(step, best, Disclosures(Transcript(step, best, values)), first, After(step, best, values).value);
    }
  }

  lemma Capped(step: real, best: Option<real>, d: nat, first: real, now: real)
    requires now <= 1.0 && if best.Some? then first == best.value else 0.0 <= first
    requires Climbed(first, step, d + if best.Some? then 1 else 0, now)
    ensures FewEnough(step, best, d)
  {
    RiseIsAProduct(d, step);
  }

  lemma {:induction false} NoDisclosureNoMove(step: real, best: Option<real>, values: seq<real>)
    ensures Disclosures(Transcript(step, best, values)) == 0 <==>
            forall i :: 0 <= i < |values| ==> !Discloses(step, best, values[i])
    ensures Disclosures(Transcript(step, best, values)) > 0 ==> After(step, best, values).Some? && After(step, best, values).value in values
    ensures Disclosures(Transcript(step, best, values)) == 0 ==> After(step, best, values) == best
  {
    if values != [] {
      var before := values[..|values| - 1];
      OneAnswerMore(step, best, values);
      NoDisclosureNoMove(step, best, before);
      assert forall v :: v in before ==> v in values;
    }
  }

  // A score that was not handed back leaves no trace: swap it for any other that
  // would not have been, and every answer and the incumbent stay as they were.
  lemma {:induction false} SilenceTellsNothing(step: real, best: Option<real>, values: seq<real>, others: seq<real>)
    requires |values| == |others|
    requires forall i :: 0 <= i < |values| ==>
               || values[i] == others[i]
               || (!Discloses(step, After(step, best, values[..i]), values[i]) &&
                    !Discloses(step, After(step, best, values[..i]), others[i]))
    ensures Transcript(step, best, values) == Transcript(step, best, others) && After(step, best, values) == After(step, best, others)
  {
    if values != [] {
      var n := |values| - 1;
      forall i | 0 <= i < n
        ensures || values[..n][i] == others[..n][i]
                || (!Discloses(step, After(step, best, values[..n][..i]), values[..n][i]) &&
                    !Discloses(step, After(step, best, values[..n][..i]), others[..n][i]))
      {
        assert values[..n][..i] == values[..i];
      }
      SilenceTellsNothing(step, best, values[..n], others[..n]);
    }
  }
}
