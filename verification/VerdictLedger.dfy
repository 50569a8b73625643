// Verdicts, and the append-only ledger that holds them and the preregistrations.
module VerdictLedger {
  import opened Prelude
  import opened Prereg

  datatype VerdictBundle = VerdictBundle(
    expId: string, promoted: bool, blockedBy: seq<string>, config: string, codeHash: string, seeds: seq<int>,
    gateNames: seq<string>, mean: Number, cost: real, cited: Option<Hash>, metrics: map<string, Number>)
  {
    // What construction refuses to go without: nothing is promoted that was blocked.
    ghost predicate Consistent()
    {
      promoted <==> blockedBy == []
    }
  }

  // A bundle as plain JSON. The last two fields are missing from old rows, and a
  // mean that is not a number is written as null.
  datatype BundleRecord = BundleRecord(
    expId: string, promoted: bool, blockedBy: seq<string>, config: string, codeHash: string, seeds: seq<int>,
    gateNames: seq<string>, mean: Option<real>, cost: real, cited: Option<Option<Hash>>, metrics: Option<map<string, Number>>)

  ghost function ToRecord(b: VerdictBundle): BundleRecord
  {
    BundleRecord(b.expId, b.promoted, b.blockedBy, b.config, b.codeHash, b.seeds, b.gateNames,
                 if b.mean.Finite? then Some(b.mean.value) else None, b.cost, Some(b.cited), Some(b.metrics))
  }

  datatype Forged = Forged

  ghost function FromRecord(d: BundleRecord): Result<VerdictBundle, Forged>
  {
    var b := VerdictBundle(d.expId, d.promoted, d.blockedBy, d.config, d.codeHash, d.seeds, d.gateNames,
                           if d.mean.Some? then Finite(d.mean.value) else Unusable, d.cost,
                           d.cited.GetOr(None), d.metrics.GetOr(map[]));
    if b.Consistent() then Ok(b) else Refused(Forged)
  }

  // A verdict survives being written and read, and no record that claims a
  // promotion the gates did not give can be read at all.
  lemma ReadBackExactlyWhenConsistent(b: VerdictBundle, d: BundleRecord)
    ensures FromRecord(ToRecord(b)) == (if b.Consistent() then Ok(b) else Refused(Forged))
    ensures FromRecord(d).Ok? <==> (d.promoted <==> d.blockedBy == [])
    ensures FromRecord(d).Ok? ==> FromRecord(d).value.promoted == d.promoted && FromRecord(d).value.Consistent()
  {
  }

  // -- rows ------------------------------------------------------------------------------

  // Line i of the file. A blank line keeps its place and says nothing.
  datatype Row = Blank | Verdict(bundle: VerdictBundle) | Filing(prereg: Preregistration)

  ghost predicate Readable(rows: seq<Row>)
  {
    forall i :: 0 <= i < |rows| ==>
      (rows[i].Verdict? ==> rows[i].bundle.Consistent()) && (rows[i].Filing? ==> rows[i].prereg.WellFormed())
  }

  ghost predicate FiledAt(rows: seq<Row>, i: nat, h: Hash)
  {
    i < |rows| && rows[i].Filing? && Digest(rows[i].prereg) == h
  }

  ghost predicate VerdictAt(rows: seq<Row>, i: nat, id: string)
  {
    i < |rows| && rows[i].Verdict? && rows[i].bundle.expId == id
  }

  function FiledHashes(rows: seq<Row>): set<Hash>
  {
    set i | 0 <= i < |rows| && rows[i].Filing? :: Digest(rows[i].prereg)
  }

  // Hashes a promoted verdict cites. An empty citation is none.
  function PromotedHashes(rows: seq<Row>): set<Hash>
  {
    set i | 0 <= i < |rows| && Promotes(rows[i]) :: rows[i].bundle.cited.value
  }

  predicate Promotes(r: Row)
  {
    r.Verdict? && r.bundle.promoted && r.bundle.cited.Some? && r.bundle.cited.value != OtherText("")
  }

  // Where the preregistrations of a lineage stand that no promoted verdict cites.
  ghost function Attempts(rows: seq<Row>, parent: Option<string>): set<int>
  {
    if parent.None? then {}
    else
      set i | 0 <= i < |rows| && rows[i].Filing? && rows[i].prereg.parent == parent && Digest(rows[i].prereg) !in PromotedHashes(rows)
  }

  function Usable(metrics: map<string, Number>): map<string, real>
  {
    map name | name in metrics && metrics[name].Finite? :: metrics[name].value
  }

  // What the newest verdict of an experiment recorded; nothing if there is none.
  ghost predicate RecordedMetrics(rows: seq<Row>, id: string, metrics: map<string, real>)
  {
    if exists i: nat :: VerdictAt(rows, i, id) then exists i: nat :: NewestVerdict(rows, i, id) && metrics == Usable(rows[i].bundle.metrics)
    else metrics == map[]
  }

  ghost predicate NewestVerdict(rows: seq<Row>, i: nat, id: string)
  {
    VerdictAt(rows, i, id) && forall j: nat :: VerdictAt(rows, j, id) ==> j <= i
  }

  ghost predicate FirstVerdict(rows: seq<Row>, id: string, r: Option<nat>)
  {
    if r.None? then forall j: nat :: !VerdictAt(rows, j, id)
    else VerdictAt(rows, r.value, id) && forall j: nat :: VerdictAt(rows, j, id) ==> r.value <= j
  }

  ghost predicate FirstFiling(rows: seq<Row>, h: Hash, r: Option<nat>)
  {
    if r.None? then forall j: nat :: !FiledAt(rows, j, h)
    else FiledAt(rows, r.value, h) && forall j: nat :: FiledAt(rows, j, h) ==> r.value <= j
  }

  ghost function Below(lines: set<int>, n: int): set<int>
  {
    set i | i in lines && i < n
  }

  lemma OneMoreBelow(lines: set<int>, n: int)
    ensures |Below(lines, n + 1)| == |Below(lines, n)| + if n in lines then 1 else 0
  {
    assert Below(lines, n + 1) == Below(lines, n) + if n in lines then {n} else {};
  }

  // The ledger, row by row: what filing a rule and recording a verdict do to the
  // lookups over it.
  lemma FiledOneMore(rows: seq<Row>, r: Row)
    ensures FiledHashes([]) == {}
    ensures FiledHashes(rows + [r]) == FiledHashes(rows) + if r.Filing? then {Digest(r.prereg)} else {}
  {
    var all := rows + [r];
    assert all[|rows|] == r && forall i :: 0 <= i < |rows| ==> all[i] == rows[i];
  }

  lemma PromotedOneMore(rows: seq<Row>, r: Row)
    ensures PromotedHashes([]) == {}
    ensures PromotedHashes(rows + [r]) ==
            PromotedHashes(rows) +
            if r.Verdict? && r.bundle.promoted && r.bundle.cited.Some? && r.bundle.cited.value != OtherText("")
            then {r.bundle.cited.value} else {}
  {
    var all := rows + [r];
    assert all[|rows|] == r && forall i :: 0 <= i < |rows| ==> all[i] == rows[i];
  }

  // A filing is an attempt of its own lineage unless it was promoted already, and a
  // promotion takes out the attempts that filed the rule it cites. Nothing else counts.
  lemma AttemptsOneMore(rows: seq<Row>, r: Row, parent: Option<string>)
    ensures Attempts([], parent) == {} && Attempts(rows, None) == {}
    ensures Attempts(rows + [r], parent) ==
            match r
            case Filing(p) =>
              Attempts(rows, parent) +
              (if parent.Some? && p.parent == parent && Digest(p) !in PromotedHashes(rows) then {|rows|} else {})
            case Verdict(b) =>
              if b.promoted && b.cited.Some? && b.cited.value.Digest?
              then set i | i in Attempts(rows, parent) && 0 <= i < |rows| && rows[i] != Filing(b.cited.value.of)
              else Attempts(rows, parent)
            case Blank => Attempts(rows, parent)
  {
    var all := rows + [r];
    assert all[|rows|] == r && forall i :: 0 <= i < |rows| ==> all[i] == rows[i];
    PromotedOneMore(rows, r);
  }

  class Ledger {
    var rows: seq<Row>

    ghost predicate Valid()
      reads this
    {
      Readable(rows)
    }

    constructor (existing: seq<Row>)
      requires Readable(existing)
      ensures Valid() && rows == existing
    {
      rows := existing;
    }

    method Append(b: VerdictBundle)
      requires Valid() && b.Consistent()
      modifies this
      ensures Valid() && rows == old(rows) + [Verdict(b)]
    {
      rows := rows + [Verdict(b)];
    }

    method AppendPrereg(p: Preregistration)
      requires Valid() && p.WellFormed()
      modifies this
      ensures Valid() && rows == old(rows) + [Filing(p)]
    {
      rows := rows + [Filing(p)];
    }

    // Filed under this hash, which is then the hash of what is returned.
    method GetPrereg(h: Hash) returns (r: Option<Preregistration>)
      requires Valid()
      ensures r.Some? <==> h in FiledHashes(rows)
      ensures r.Some? ==> Digest(r.value) == h && r.value.WellFormed()
    {
      for i := 0 to |rows|
        invariant forall j :: 0 <= j < i && rows[j].Filing? ==> Digest(rows[j].prereg) != h
      {
        if rows[i].Filing? && Digest(rows[i].prereg) == h {
          return Some(rows[i].prereg);
        }
      }
      return None;
    }

    method NonPromotingPreregCount(parent: Option<string>) returns (n: nat)
      ensures n == |Attempts(rows, parent)|
    {
      n := 0;
      if parent.None? {
        return;
      }
      var promoted := PromotedHashes(rows);
      for i := 0 to |rows|
        invariant n == |Below(Attempts(rows, parent), i)|
      {
        OneMoreBelow(Attempts(rows, parent), i);
        if rows[i].Filing? && rows[i].prereg.parent == parent && Digest(rows[i].prereg) !in promoted {
          n := n + 1;
        }
      }
      assert Below(Attempts(rows, parent), |rows|) == Attempts(rows, parent);
    }

    // Newest first. A value that is not a finite number is treated as absent.
    method GetVerdictMetrics(id: string) returns (metrics: map<string, real>)
      ensures RecordedMetrics(rows, id, metrics)
    {
      var i := |rows|;
      while i > 0
        invariant 0 <= i <= |rows| && forall j: nat :: VerdictAt(rows, j, id) ==> j < i
      {
        i := i - 1;
        if rows[i].Verdict? && rows[i].bundle.expId == id {
          assert NewestVerdict(rows, i, id);
          return Usable(rows[i].bundle.metrics);
        }
      }
      return map[];
    }

    method PositionOfVerdict(id: string) returns (r: Option<nat>)
      ensures FirstVerdict(rows, id, r)
    {
      for i := 0 to |rows|
        invariant forall j: nat :: VerdictAt(rows, j, id) ==> i <= j
      {
        if rows[i].Verdict? && rows[i].bundle.expId == id {
          assert VerdictAt(rows, i, id);
          return Some(i);
        }
      }
      return None;
    }

    method PositionOfPrereg(h: Hash) returns (r: Option<nat>)
      ensures FirstFiling(rows, h, r)
    {
      for i := 0 to |rows|
        invariant forall j: nat :: FiledAt(rows, j, h) ==> i <= j
      {
        if rows[i].Filing? && Digest(rows[i].prereg) == h {
          assert FiledAt(rows, i, h);
          return Some(i);
        }
      }
      return None;
    }
  }
}
