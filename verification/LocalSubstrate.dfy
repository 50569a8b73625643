// The local substrate's methods over its directory of jobs. Jobs write their
// records and exit whenever they like between two of its steps.
module LocalSubstrate {
  import opened Prelude
  import opened RegistryLog
  import opened LocalDisk

  // What a submission asks for; the memory setting may be missing or not a number.
  datatype Wish = Wish(key: Option<Key>, needsGpu: bool, memory: Option<Option<int>>)

  ghost predicate ByJobs(e: Effect)
  {
    e.LeaveRecord? || e.Exit? || e.Garble?
  }

  // Why a job is not admitted, on a machine with this many jobs live and these
  // amounts of memory free.
  ghost predicate Refusable(wish: Wish, live: nat, max: int, free: seq<int>, reserve: int)
  {
    || (wish.memory.Some? && wish.memory.value.None?)
    || live >= max
    || (wish.needsGpu && free == [])
    || (wish.memory.Some? && wish.memory.value.Some? && wish.memory.value.value != 0 && free != []
        && forall i :: 0 <= i < |free| ==> free[i] - reserve < wish.memory.value.value)
  }

  lemma {:induction false} JobsKeepSubmission(d: Disk, es: seq<Effect>, max: int)
    requires Effects(d, es, max) && forall i :: 0 <= i < |es| ==> ByJobs(es[i])
    ensures var d' := Later(d, es);
            && d'.phase == d.phase && d'.spawns == d.spawns && d'.dirs.Keys == d.dirs.Keys
            && d'.markers.Keys == d.markers.Keys && d'.alive <= d.alive
            && (forall h :: h in d.dirs ==> d'.dirs[h].meta == d.dirs[h].meta && (d.dirs[h].done ==> d'.dirs[h].done))
            && (forall h :: h in d.dirs && h !in d.alive ==> d'.dirs[h] == d.dirs[h])
    decreases |es|
  {
    if es != [] {
      JobsKeepSubmission(Apply(d, es[0]), es[1..], max);
    }
  }

  // The effects of submissions alone, in order.
  ghost function Own(es: seq<Effect>): seq<Effect>
  {
    if es == [] then []
    else Own(es[..|es| - 1]) + if ByJobs(es[|es| - 1]) then [] else [es[|es| - 1]]
  }

  lemma OwnOneMore(es: seq<Effect>, e: Effect)
    ensures Own(es + [e]) == if ByJobs(e) then Own(es) else Own(es) + [e]
  {
    assert (es + [e])[..|es|] == es;
  }

  lemma FiveInOrder(es: seq<Effect>, a: Effect, b: Effect, c: Effect, d: Effect, e: Effect)
    ensures es + [a] + [b] + [c] + [d, e] == es + [a, b, c, d, e]
  {
  }

  class LocalGpuSubstrate {
    const maxConcurrent: int
    const reserve: int
    var disk: Disk
    ghost const start: Disk
    ghost var history: seq<Effect>
    ghost var own: seq<Effect>

    ghost predicate Valid()
      reads this
    {
      && OncePerKey(start) && Effects(start, history, maxConcurrent) && disk == Later(start, history)
      && own == Own(history) && forall i :: 0 <= i < |history| ==> !history[i].DieWritingPid?
    }

    constructor (max: int, reserve: int)
      ensures Valid() && disk == Disk(map[], map[], Idle, {}, []) && maxConcurrent == max
    {
      maxConcurrent, this.reserve := max, reserve;
      disk, start, history, own := Disk(map[], map[], Idle, {}, []), Disk(map[], map[], Idle, {}, []), [], [];
    }

    lemma Once()
      requires Valid()
      ensures OncePerKey(disk)
    {
      RunsOncePerKey(start, history, maxConcurrent);
    }

    // One effect on the disk or the process table.
    method Take(e: Effect)
      requires Valid() && Possible(disk, e, maxConcurrent) && !e.DieWritingPid?
      modifies this
      ensures Valid() && disk == Apply(old(disk), e) && history == old(history) + [e]
      ensures own == if ByJobs(e) then old(own) else old(own) + [e]
    {
      OwnOneMore(history, e);
      assert [e][1..] == [] && Effects(Apply(disk, e), [], maxConcurrent);
      EffectsConcat(start, history, [e], maxConcurrent);
      history := history + [e];
      own := if ByJobs(e) then own else own + [e];
      disk := Apply(disk, e);
    }

    // Whatever the jobs do here. The body does nothing; callers may rely on
    // nothing but the contract.
    method JobsGoOn() returns (ghost more: seq<Effect>)
      requires Valid()
      modifies this
      ensures Valid() && Effects(old(disk), more, maxConcurrent) && disk == Later(old(disk), more)
      ensures history == old(history) + more && own == old(own) && forall i :: 0 <= i < |more| ==> ByJobs(more[i])
    {
      more := [];
      assert history + more == history;
    }

    ghost predicate SameSubmission(before: Disk)
      reads this
    {
      && disk.phase == before.phase && disk.spawns == before.spawns && disk.dirs.Keys == before.dirs.Keys
      && disk.markers.Keys == before.markers.Keys
      && (forall h :: h in before.dirs ==> disk.dirs[h].meta == before.dirs[h].meta)
    }

    method Wait()
      requires Valid()
      modifies this
      ensures Valid() && SameSubmission(old(disk)) && old(history) <= history && own == old(own)
    {
      ghost var before := disk;
      ghost var more := JobsGoOn();
      JobsKeepSubmission(before, more, maxConcurrent);
    }

    // -- reading -------------------------------------------------------------

    // One reading of a job's state; the probe may mistake a reused pid for the job.
    method Poll(h: Handle, reused: set<Handle>) returns (state: JobState)
      requires Valid()
      modifies this
      ensures Valid() && SameSubmission(old(disk)) && old(history) <= history
      ensures state == RESOLVED ==> HasRecord(disk, h)
      ensures state == LOST ==>
                h !in disk.dirs || !disk.dirs[h].meta.Written? ||
                (!HasRecord(disk, h) && disk.dirs[h].meta.pid && h !in disk.alive && h !in reused)
      ensures state == SUBMITTED ==>
                h in disk.dirs && disk.dirs[h].meta.Written? && (disk.dirs[h].meta.pid ==> h in disk.alive || h in reused)
      ensures old(StateOf(disk, h, reused)) == RESOLVED ==> state == RESOLVED
    {
      if h !in disk.dirs {
        return LOST;
      }
      if disk.dirs[h].done {
        return RESOLVED;
      }
      ghost var before := disk;
      ghost var more := JobsGoOn();
      JobsKeepSubmission(before, more, maxConcurrent);
      if !disk.dirs[h].meta.Written? {
        return LOST;
      }
      if !disk.dirs[h].meta.pid {
        return SUBMITTED;
      }
      if h in disk.alive || h in reused {
        return SUBMITTED;
      }
      ghost var probed := disk;
      more := JobsGoOn();
      JobsKeepSubmission(probed, more, maxConcurrent);
      return if disk.dirs[h].done then RESOLVED else LOST;
    }

    // The handles whose process is still alive, by reading the directories.
    method RunningHandles(reused: set<Handle>) returns (live: set<Handle>)
      ensures live == Live(disk, reused)
    {
      live := {};
      var left := disk.dirs.Keys;
      while left != {}
        invariant left <= disk.dirs.Keys
        invariant live == set h | h in disk.dirs && h !in left && StateOf(disk, h, reused) == SUBMITTED
      {
        var h :| h in left;
        if StateOf(disk, h, reused) == SUBMITTED {
          live := live + {h};
        }
        left := left - {h};
      }
    }

    // Refuse now, or admit. Every failure it catches would surface hours later.
    method Preflight(wish: Wish, required: int, free: seq<int>, reused: set<Handle>) returns (ok: bool)
      requires required == if wish.memory.Some? && wish.memory.value.Some? then wish.memory.value.value else 0
      requires wish.memory.Some? ==> wish.memory.value.Some?
      ensures ok <==> !Refusable(wish, |Live(disk, reused)|, maxConcurrent, free, reserve)
    {
      var live := RunningHandles(reused);
      if |live| >= maxConcurrent || (wish.needsGpu && free == []) {
        return false;
      }
      if required != 0 && free != [] {
        var usable := free[0] - reserve;
        for i := 1 to |free|
          invariant forall j :: 0 <= j < i ==> free[j] - reserve <= usable
          invariant exists j :: 0 <= j < i && usable == free[j] - reserve
        {
          if free[i] - reserve > usable {
            usable := free[i] - reserve;
          }
        }
        return usable >= required;
      }
      return true;
    }

    // -- submission ----------------------------------------------------------

    method Describe(key: Option<Key>, h: Handle)
      requires Valid() && disk.phase == Made(key, h)
      modifies this
      ensures Valid() && old(history) <= history && disk.phase == Described(key, h)
      ensures disk.spawns == old(disk).spawns && disk.markers.Keys == old(disk).markers.Keys
      ensures own == old(own) + [WriteMeta]
    {
      Take(WriteMeta);
      Wait();
    }

    method Mark(key: Option<Key>, h: Handle)
      requires Valid() && disk.phase == Described(key, h)
      modifies this
      ensures Valid() && old(history) <= history && disk.phase == Marked(key, h)
      ensures disk.spawns == old(disk).spawns && disk.markers.Keys == old(disk).markers.Keys + (if key.Some? then {key.value} else {})
      ensures own == old(own) + [WriteMarker]
    {
      MarkerWritten(disk, key, h);
      Take(WriteMarker);
      Wait();
    }

    lemma MarkerWritten(d: Disk, key: Option<Key>, h: Handle)
      requires d.phase == Described(key, h)
      ensures var d' := Apply(d, WriteMarker);
              && d'.phase == Marked(key, h) && d'.spawns == d.spawns
              && d'.markers.Keys == d.markers.Keys + (if key.Some? then {key.value} else {})
    {
    }

    // The process, then its pid.
    method StartAndRecord(key: Option<Key>, h: Handle)
      requires Valid() && disk.phase == Marked(key, h)
      modifies this
      ensures Valid() && old(history) <= history && disk.phase.Idle? && h in disk.dirs && disk.dirs[h].meta == Written(true)
      ensures disk.spawns == old(disk).spawns + [Spawn(key, h)] && disk.markers.Keys == old(disk).markers.Keys
      ensures own == old(own) + [StartProcess, WritePid]
    {
      Take(StartProcess);
      Wait();
      Take(WritePid);
    }

    // Start a detached process, unless the submission's key already has one.
    method Submit(wish: Wish, minted: Handle, free: seq<int>, reused: set<Handle>) returns (r: Result<Handle, Refusal>)
      requires Valid() && disk.phase.Idle?
      modifies this
      ensures Valid() && old(history) <= history && disk.phase.Idle?
      ensures match r
              case Ok(h) =>
                if HasMarker(old(disk), wish.key)
                then old(disk).markers[wish.key.value] == Names(h) && disk == old(disk)
                else
                  && h == minted && disk.spawns == old(disk).spawns + [Spawn(wish.key, h)] && Settled(disk, h)
                  && disk.dirs[h].meta == Written(true)
                  && own == old(own) + [MakeDir(wish.key, h), WriteMeta, WriteMarker, StartProcess, WritePid]
              case Refused(why) =>
                && disk == old(disk)
                && (why == Declined <==>
                      !HasMarker(disk, wish.key) && Refusable(wish, |Live(disk, reused)|, maxConcurrent, free, reserve))
                && (why == Declined && wish.key.Some? ==> !SpawnedKey(disk, wish.key.value))
                && (why != Declined ==> why == OutcomeUnknown)
                && (why == OutcomeUnknown && HasMarker(disk, wish.key) ==> disk.markers[wish.key.value] == Garbled)
                && (why == OutcomeUnknown && !HasMarker(disk, wish.key) ==> minted in disk.dirs)
      ensures old(WithinCapacity(disk, maxConcurrent)) ==> WithinCapacity(disk, maxConcurrent)
    {
      ghost var before := disk;
      ghost var was := history;
      Once();
      if wish.key.Some? && wish.key.value in disk.markers {
        var seen := disk.markers[wish.key.value];
        return if seen.Names? then Ok(seen.handle) else Refused(OutcomeUnknown);
      }
      var required := 0;
      if wish.memory.Some? {
        if wish.memory.value.None? {
          return Refused(Declined);
        }
        required := wish.memory.value.value;
      }
      var ok := Preflight(wish, required, free, reused);
      if !ok {
        return Refused(Declined);
      }
      if minted in disk.dirs {
        return Refused(OutcomeUnknown);
      }
      assert CanStart(disk, MakeDir(wish.key, minted), maxConcurrent, reused);
      Launch(wish.key, minted, reused);
      Tail(was, before);
      return Ok(minted);
    }

    // The directory, its metadata, the marker, and only then the process and its pid.
    method Launch(key: Option<Key>, h: Handle, ghost reused: set<Handle>)
      requires Valid() && CanStart(disk, MakeDir(key, h), maxConcurrent, reused)
      modifies this
      ensures Valid() && old(history) <= history && disk.phase.Idle?
      ensures disk.spawns == old(disk).spawns + [Spawn(key, h)] && Settled(disk, h) && disk.dirs[h].meta == Written(true)
      ensures own == old(own) + [MakeDir(key, h), WriteMeta, WriteMarker, StartProcess, WritePid]
    {
      FiveInOrder(own, MakeDir(key, h), WriteMeta, WriteMarker, StartProcess, WritePid);
      Take(MakeDir(key, h));
      Describe(key, h);
      Mark(key, h);
      StartAndRecord(key, h);
      Once();
      assert disk.spawns[|disk.spawns| - 1] == Spawn(key, h);
    }

    lemma Tail(was: seq<Effect>, before: Disk)
      requires Valid() && was <= history && Effects(start, was, maxConcurrent) && before == Later(start, was)
      ensures WithinCapacity(before, maxConcurrent) ==> WithinCapacity(disk, maxConcurrent)
    {
      var more := history[|was|..];
      assert was + more == history;
      EffectsSplit(start, was, more, maxConcurrent);
      if WithinCapacity(before, maxConcurrent) {
        CapacityHolds(before, more, maxConcurrent);
      }
    }
  }

  lemma {:induction false} EffectsSplit(d: Disk, first: seq<Effect>, second: seq<Effect>, max: int)
    requires Effects(d, first + second, max)
    ensures Effects(Later(d, first), second, max) && Later(d, first + second) == Later(Later(d, first), second)
    decreases |first|
  {
    if first == [] {
      assert first + second == second;
    } else {
      assert (first + second)[1..] == first[1..] + second;
      EffectsSplit(Apply(d, first[0]), first[1..], second, max);
    }
  }
}
