// The local substrate's protocol on disk: a directory, its metadata, a key
// marker and a process, written in that order by a submission that may die
// between any two of them, while jobs finish and exit on their own.
module LocalDisk {
  import opened Prelude
  import opened RegistryLog

  // meta.json: absent, unreadable, or readable with or without the pid that is
  // added once the process exists.
  datatype Meta = Absent | Torn | Written(pid: bool)

  datatype JobDir = JobDir(meta: Meta, done: bool)

  datatype Marker = Names(handle: Handle) | Garbled

  // A submission need not name a key; one without a key leaves no marker.
  datatype Spawn = Spawn(key: Option<Key>, handle: Handle)

  // Where the one submission in progress has got to.
  datatype Phase =
    | Idle
    | Made(key: Option<Key>, handle: Handle)
    | Described(key: Option<Key>, handle: Handle)
    | Marked(key: Option<Key>, handle: Handle)
    | Running(key: Option<Key>, handle: Handle)

  // `alive` and `spawns` are the processes themselves, which no file records.
  datatype Disk = Disk(
    dirs: map<Handle, JobDir>, markers: map<Key, Marker>, phase: Phase,
    alive: set<Handle>, spawns: seq<Spawn>)

  datatype Effect =
    | MakeDir(key: Option<Key>, handle: Handle)
    | WriteMeta
    | WriteMarker
    | StartProcess
    | WritePid
    | Die
    | DieWritingMeta
    | DieWritingMarker
    | DieWritingPid
    | Garble(marker: Key)
    | LeaveRecord(handle: Handle)
    | Exit(handle: Handle)

  // `reused` are the handles whose recorded pid now belongs to another process.
  function StateOf(d: Disk, h: Handle, reused: set<Handle>): JobState
  {
    if h !in d.dirs then LOST
    else if d.dirs[h].done then RESOLVED
    else match d.dirs[h].meta
      case Absent => LOST
      case Torn => LOST
      case Written(pid) =>
        if !pid then SUBMITTED
        else if h in d.alive || h in reused then SUBMITTED
        else LOST
  }

  // What a count of running jobs takes for one: no record, readable metadata, and
  // no pid in it yet or one that some process answers to.
  ghost function Live(d: Disk, reused: set<Handle>): set<Handle>
  {
    set h | h in d.dirs && !d.dirs[h].done && d.dirs[h].meta.Written? && (d.dirs[h].meta.pid ==> h in d.alive || h in reused)
  }

  lemma StateMeans(d: Disk, h: Handle, reused: set<Handle>)
    ensures StateOf(d, h, reused) == RESOLVED <==> h in d.dirs && d.dirs[h].done
    ensures StateOf(d, h, reused) == SUBMITTED <==> h in Live(d, reused)
  {
  }

  ghost predicate HasMarker(d: Disk, key: Option<Key>)
  {
    key.Some? && key.value in d.markers
  }

  ghost predicate CanStart(d: Disk, e: Effect, max: int, reused: set<Handle>)
    requires e.MakeDir?
  {
    d.phase.Idle? && !HasMarker(d, e.key) && |Live(d, reused)| < max && e.handle !in d.dirs
  }

  ghost predicate Possible(d: Disk, e: Effect, max: int)
  {
    match e
    case MakeDir(key, handle) => exists reused :: CanStart(d, e, max, reused)
    case WriteMeta => d.phase.Made?
    case WriteMarker => d.phase.Described?
    case StartProcess => d.phase.Marked?
    case WritePid => d.phase.Running?
    case Die => true
    case DieWritingMeta => d.phase.Made?
    case DieWritingMarker => d.phase.Described? && d.phase.key.Some?
    case DieWritingPid => d.phase.Running?
    case Garble(key) => key in d.markers
    case LeaveRecord(handle) => handle in d.alive && handle in d.dirs
    case Exit(handle) => handle in d.alive
  }

  function SetMeta(d: Disk, h: Handle, meta: Meta): map<Handle, JobDir>
  {
    d.dirs[h := JobDir(meta, h in d.dirs && d.dirs[h].done)]
  }

  // The markers once the submission in progress has written its own.
  function Marking(d: Disk, m: Marker): map<Key, Marker>
    requires d.phase.Described?
  {
    if d.phase.key.Some? then d.markers[d.phase.key.value := m] else d.markers
  }

  function Apply(d: Disk, e: Effect): Disk
  {
    match e
    case MakeDir(key, handle) =>
      d.(dirs := d.dirs[handle := JobDir(Absent, false)], phase := Made(key, handle))
    case WriteMeta =>
      if !d.phase.Made? then d else
      d.(dirs := SetMeta(d, d.phase.handle, Written(false)), phase := Described(d.phase.key, d.phase.handle))
    case WriteMarker =>
      if !d.phase.Described? then d else
      d.(markers := Marking(d, Names(d.phase.handle)), phase := Marked(d.phase.key, d.phase.handle))
    case StartProcess =>
      if !d.phase.Marked? then d else
      d.(alive := d.alive + {d.phase.handle}, spawns := d.spawns + [Spawn(d.phase.key, d.phase.handle)],
         phase := Running(d.phase.key, d.phase.handle))
    case WritePid =>
      if !d.phase.Running? then d else d.(dirs := SetMeta(d, d.phase.handle, Written(true)), phase := Idle)
    case Die => d.(phase := Idle)
    case DieWritingMeta =>
      if !d.phase.Made? then d else d.(dirs := SetMeta(d, d.phase.handle, Torn), phase := Idle)
    case DieWritingMarker =>
      if !d.phase.Described? then d else d.(markers := Marking(d, Garbled), phase := Idle)
    case DieWritingPid =>
      if !d.phase.Running? then d else d.(dirs := SetMeta(d, d.phase.handle, Torn), phase := Idle)
    case Garble(key) => d.(markers := d.markers[key := Garbled])
    case LeaveRecord(handle) =>
      if handle !in d.dirs then d else d.(dirs := d.dirs[handle := d.dirs[handle].(done := true)])
    case Exit(handle) => d.(alive := d.alive - {handle})
  }

  ghost predicate Effects(d: Disk, es: seq<Effect>, max: int)
    decreases |es|
  {
    es == [] || (Possible(d, es[0], max) && Effects(Apply(d, es[0]), es[1..], max))
  }

  ghost function Later(d: Disk, es: seq<Effect>): Disk
    decreases |es|
  {
    if es == [] then d else Later(Apply(d, es[0]), es[1..])
  }

  lemma {:induction false} EffectsConcat(d: Disk, first: seq<Effect>, second: seq<Effect>, max: int)
    requires Effects(d, first, max) && Effects(Later(d, first), second, max)
    ensures Effects(d, first + second, max) && Later(d, first + second) == Later(Later(d, first), second)
    decreases |first|
  {
    if first == [] {
      assert first + second == second;
    } else {
      EffectsConcat(Apply(d, first[0]), first[1..], second, max);
      assert (first + second)[1..] == first[1..] + second;
    }
  }

  // ---- one process per key -------------------------------------------------

  ghost predicate SpawnedKey(d: Disk, key: Key)
  {
    exists i :: 0 <= i < |d.spawns| && d.spawns[i].key == Some(key)
  }

  ghost predicate OncePerKey(d: Disk)
  {
    && (forall i, j :: 0 <= i < j < |d.spawns| ==>
          d.spawns[i].handle != d.spawns[j].handle && (d.spawns[i].key.Some? ==> d.spawns[i].key != d.spawns[j].key))
    && (forall i :: 0 <= i < |d.spawns| ==>
          d.spawns[i].handle in d.dirs && (d.spawns[i].key.Some? ==> d.spawns[i].key.value in d.markers))
    && match d.phase
       case Idle => true
       case Made(key, handle) => !HasMarker(d, key) && Fresh(d, handle)
       case Described(key, handle) => !HasMarker(d, key) && Fresh(d, handle)
       case Marked(key, handle) =>
         (key.Some? ==> key.value in d.markers && !SpawnedKey(d, key.value)) && Fresh(d, handle)
       case Running(key, handle) => handle in d.dirs && Spawn(key, handle) in d.spawns
  }

  ghost predicate Fresh(d: Disk, handle: Handle)
  {
    handle in d.dirs && forall i :: 0 <= i < |d.spawns| ==> d.spawns[i].handle != handle
  }

  lemma KeepOncePerKey(d: Disk, e: Effect, max: int)
    requires OncePerKey(d) && Possible(d, e, max)
    ensures OncePerKey(Apply(d, e))
  {
    var d' := Apply(d, e);
    if e.StartProcess? {
      assert d'.spawns[|d.spawns|] == Spawn(d.phase.key, d.phase.handle);
    }
    assert d.phase.Marked? && !e.StartProcess? ==> d'.spawns == d.spawns;
  }

  lemma {:induction false} RunsOncePerKey(d: Disk, es: seq<Effect>, max: int)
    requires OncePerKey(d) && Effects(d, es, max)
    ensures OncePerKey(Later(d, es))
    decreases |es|
  {
    if es != [] {
      KeepOncePerKey(d, es[0], max);
      RunsOncePerKey(Apply(d, es[0]), es[1..], max);
    }
  }

  // Every refusal is made before the key has a marker, so it is true that
  // nothing was started for it, then or at any time before.
  lemma DeclinedNeverStarted(d: Disk, es: seq<Effect>, max: int, key: Key)
    requires OncePerKey(d) && Effects(d, es, max) && key !in Later(d, es).markers
    ensures !SpawnedKey(Later(d, es), key)
  {
    RunsOncePerKey(d, es, max);
  }

  // ---- capacity ------------------------------------------------------------

  // Payloads still at work: alive, and no completion record yet.
  ghost function Unfinished(d: Disk): set<Handle>
  {
    set h | h in d.alive && (h in d.dirs ==> !d.dirs[h].done)
  }

  // Every process that could still be at work shows up in `running`.
  ghost predicate AllDescribed(d: Disk)
  {
    && (forall h :: h in d.alive ==> h in d.dirs && d.dirs[h].meta.Written?)
    && ((d.phase.Described? || d.phase.Marked?) ==> d.phase.handle in d.dirs && d.dirs[d.phase.handle].meta.Written?)
    && (d.phase.Made? ==> d.phase.handle !in d.alive)
  }

  ghost predicate WithinCapacity(d: Disk, max: int)
  {
    AllDescribed(d) && |Unfinished(d)| + (if d.phase.Made? || d.phase.Described? || d.phase.Marked? then 1 else 0) <= max
  }

  lemma UnfinishedAreLive(d: Disk, reused: set<Handle>)
    requires AllDescribed(d)
    ensures Unfinished(d) <= Live(d, reused)
  {
  }

  lemma KeepCapacity(d: Disk, e: Effect, max: int)
    requires WithinCapacity(d, max) && Possible(d, e, max) && !e.DieWritingPid?
    ensures WithinCapacity(Apply(d, e), max)
  {
    var d' := Apply(d, e);
    if e.MakeDir? {
      var reused :| CanStart(d, e, max, reused);
      UnfinishedAreLive(d, reused);
      SubsetSize(Unfinished(d), Live(d, reused));
      assert Unfinished(d') == Unfinished(d);
    } else if e.StartProcess? && d.phase.Marked? {
      SubsetSize(Unfinished(d'), Unfinished(d) + {d.phase.handle});
    } else {
      SubsetSize(Unfinished(d'), Unfinished(d));
    }
  }

  // With whole-file writes of the pid, however submissions die, no more payloads
  // are at work than the limit allows.
  lemma {:induction false} CapacityHolds(d: Disk, es: seq<Effect>, max: int)
    requires WithinCapacity(d, max) && Effects(d, es, max)
    requires forall i :: 0 <= i < |es| ==> !es[i].DieWritingPid?
    ensures WithinCapacity(Later(d, es), max) && |Unfinished(Later(d, es))| <= max
    decreases |es|
  {
    if es != [] {
      KeepCapacity(d, es[0], max);
      CapacityHolds(Apply(d, es[0]), es[1..], max);
    }
  }

  // Everything a submission does up to its process.
  ghost function Launching(key: Option<Key>, handle: Handle): seq<Effect>
  {
    [MakeDir(key, handle), WriteMeta, WriteMarker, StartProcess]
  }

  ghost function Launched(d: Disk, key: Option<Key>, handle: Handle): Disk
  {
    Disk(d.dirs[handle := JobDir(Written(false), false)],
         if key.Some? then d.markers[key.value := Names(handle)] else d.markers,
         Running(key, handle), d.alive + {handle}, d.spawns + [Spawn(key, handle)])
  }

  lemma OneEffect(d: Disk, e: Effect, rest: seq<Effect>, max: int)
    requires Possible(d, e, max) && Effects(Apply(d, e), rest, max)
    ensures Effects(d, [e] + rest, max) && Later(d, [e] + rest) == Later(Apply(d, e), rest)
  {
    assert ([e] + rest)[1..] == rest;
  }

  lemma LaunchSteps(d: Disk, key: Option<Key>, handle: Handle, max: int, reused: set<Handle>)
    requires CanStart(d, MakeDir(key, handle), max, reused)
    ensures Effects(d, Launching(key, handle), max) && Later(d, Launching(key, handle)) == Launched(d, key, handle)
  {
    var d1 := Apply(d, MakeDir(key, handle));
    var d2 := Apply(d1, WriteMeta);
    var d3 := Apply(d2, WriteMarker);
    assert Apply(d3, StartProcess) == Launched(d, key, handle);
    OneEffect(d3, StartProcess, [], max);
    OneEffect(d2, WriteMarker, [StartProcess] + [], max);
    OneEffect(d1, WriteMeta, [WriteMarker] + ([StartProcess] + []), max);
    OneEffect(d, MakeDir(key, handle), [WriteMeta] + ([WriteMarker] + ([StartProcess] + [])), max);
    assert Launching(key, handle) == [MakeDir(key, handle)] + ([WriteMeta] + ([WriteMarker] + ([StartProcess] + [])));
  }

  lemma LaunchedIsAtWork(d: Disk, key: Option<Key>, handle: Handle)
    requires handle !in d.dirs
    ensures Unfinished(Launched(d, key, handle)) == Unfinished(d) + {handle}
  {
  }

  // Some admission on this disk puts more payloads to work than the limit allows.
  ghost predicate CanPassTheLimit(d: Disk, max: int)
  {
    exists key, handle, reused ::
      CanStart(d, MakeDir(Some(key), handle), max, reused) && |Unfinished(Later(d, Launching(Some(key), handle)))| > max
  }

  lemma {:induction false} LongerThanAll(names: set<string>) returns (x: string)
    ensures forall y :: y in names ==> |y| < |x|
    decreases |names|
  {
    if names == {} {
      x := "";
    } else {
      var y :| y in names;
      x := LongerThanAll(names - {y});
      x := x + y + "x";
    }
  }

  lemma PassingTakesAnUncounted(d: Disk, max: int)
    requires CanPassTheLimit(d, max)
    ensures |Live(d, {})| < max <= |Unfinished(d)|
  {
    var key, handle, reused :|
      CanStart(d, MakeDir(Some(key), handle), max, reused) && |Unfinished(Later(d, Launching(Some(key), handle)))| > max;
    LaunchSteps(d, Some(key), handle, max, reused);
    LaunchedIsAtWork(d, Some(key), handle);
    SubsetSize(Live(d, {}), Live(d, reused));
  }

  lemma AnUncountedLetsOnePass(d: Disk, max: int)
    requires d.phase.Idle? && |Live(d, {})| < max <= |Unfinished(d)|
    ensures CanPassTheLimit(d, max)
  {
    var x := LongerThanAll(d.dirs.Keys + d.alive + d.markers.Keys);
    assert forall y :: y in d.dirs.Keys + d.alive + d.markers.Keys ==> y != x;
    assert x !in d.dirs.Keys + d.alive + d.markers.Keys;
    LaunchSteps(d, Some(x), x, max, {});
    LaunchedIsAtWork(d, Some(x), x);
    assert x !in Unfinished(d);
  }

  // The next admission can pass the limit exactly when the substrate counts fewer
  // payloads than the limit while at least that many are at work, and that takes a
  // payload at work whose metadata cannot be read.
  lemma LimitPassedExactlyWhen(d: Disk, max: int)
    requires d.phase.Idle?
    ensures CanPassTheLimit(d, max) <==> |Live(d, {})| < max <= |Unfinished(d)|
    ensures CanPassTheLimit(d, max) ==> exists h :: h in Unfinished(d) && (h in d.dirs ==> !d.dirs[h].meta.Written?)
  {
    if CanPassTheLimit(d, max) {
      PassingTakesAnUncounted(d, max);
      if Unfinished(d) <= Live(d, {}) {
        SubsetSize(Unfinished(d), Live(d, {}));
      }
    } else if |Live(d, {})| < max <= |Unfinished(d)| {
      AnUncountedLetsOnePass(d, max);
    }
  }

  lemma LaunchDieLaunch(d: Disk, k1: Option<Key>, h1: Handle, k2: Option<Key>, h2: Handle, max: int)
    requires CanStart(d, MakeDir(k1, h1), max, {}) && h1 != h2
    requires CanStart(Apply(Launched(d, k1, h1), DieWritingPid), MakeDir(k2, h2), max, {})
    ensures var es := Launching(k1, h1) + ([DieWritingPid] + Launching(k2, h2));
            Effects(d, es, max) && Unfinished(Later(d, es)) == Unfinished(d) + {h1, h2}
  {
    var one := Launched(d, k1, h1);
    var dead := Apply(one, DieWritingPid);
    LaunchSteps(d, k1, h1, max, {});
    LaunchSteps(dead, k2, h2, max, {});
    OneEffect(one, DieWritingPid, Launching(k2, h2), max);
    EffectsConcat(d, Launching(k1, h1), [DieWritingPid] + Launching(k2, h2), max);
    LaunchedIsAtWork(d, k1, h1);
    assert Unfinished(dead) == Unfinished(one);
    LaunchedIsAtWork(dead, k2, h2);
  }

  // One death in the middle of writing a pid is enough, from an empty disk, for
  // two payloads on a card that takes one.
  lemma TornPidFreesASlot()
    ensures var d := Disk(map[], map[], Idle, {}, []);
            var es := Launching(Some("a"), "1") + ([DieWritingPid] + Launching(Some("b"), "2"));
            WithinCapacity(d, 1) && Effects(d, es, 1) && |Unfinished(Later(d, es))| == 2
  {
    var d := Disk(map[], map[], Idle, {}, []);
    var dead := Apply(Launched(d, Some("a"), "1"), DieWritingPid);
    assert Live(d, {}) == {} && Live(dead, {}) == {};
    assert dead.dirs == map["1" := JobDir(Torn, false)] && dead.markers == map["a" := Names("1")];
    LaunchDieLaunch(d, Some("a"), "1", Some("b"), "2", 1);
    assert Unfinished(d) + {"1", "2"} == {"1", "2"};
  }

  // ---- polling while the job goes on ---------------------------------------

  // One poll, reading the directory, the record, the metadata, the process and
  // the record again in five successive states of the disk.
  ghost function Poll(d0: Disk, d1: Disk, d2: Disk, d3: Disk, d4: Disk, h: Handle, reused: set<Handle>): JobState
  {
    if h !in d0.dirs then LOST
    else if HasRecord(d1, h) then RESOLVED
    else if h !in d2.dirs || !d2.dirs[h].meta.Written? then LOST
    else if !d2.dirs[h].meta.pid || h in d3.alive || h in reused then SUBMITTED
    else if HasRecord(d4, h) then RESOLVED else LOST
  }

  ghost predicate HasRecord(d: Disk, h: Handle)
  {
    h in d.dirs && d.dirs[h].done
  }

  // A handle some submission returned: its process was started once and no
  // submission in progress concerns it.
  ghost predicate Settled(d: Disk, h: Handle)
  {
    && OncePerKey(d) && h in d.dirs && d.dirs[h].meta.Written?
    && (exists i :: 0 <= i < |d.spawns| && d.spawns[i].handle == h)
    && (!d.phase.Idle? ==> d.phase.handle != h)
  }

  lemma SettledStep(d: Disk, e: Effect, max: int, h: Handle)
    requires Settled(d, h) && Possible(d, e, max)
    ensures Settled(Apply(d, e), h)
    ensures HasRecord(d, h) ==> HasRecord(Apply(d, e), h)
    ensures h !in d.alive ==> h !in Apply(d, e).alive && (HasRecord(Apply(d, e), h) ==> HasRecord(d, h))
  {
    KeepOncePerKey(d, e, max);
    var i :| 0 <= i < |d.spawns| && d.spawns[i].handle == h;
    assert Apply(d, e).spawns[i].handle == h;
  }

  lemma {:induction false} SettledRun(d: Disk, es: seq<Effect>, max: int, h: Handle)
    requires Settled(d, h) && Effects(d, es, max)
    ensures Settled(Later(d, es), h)
    ensures HasRecord(d, h) ==> HasRecord(Later(d, es), h)
    ensures h !in d.alive ==> h !in Later(d, es).alive && (HasRecord(Later(d, es), h) ==> HasRecord(d, h))
    decreases |es|
  {
    if es != [] {
      SettledStep(d, es[0], max, h);
      SettledRun(Apply(d, es[0]), es[1..], max, h);
    }
  }

  // Some run of effects leads from one state to the other.
  ghost predicate Reaches(d: Disk, d': Disk, max: int)
  {
    exists es :: Effects(d, es, max) && Later(d, es) == d'
  }

  lemma SettledReach(d: Disk, d': Disk, max: int, h: Handle)
    requires Settled(d, h) && Reaches(d, d', max)
    ensures Settled(d', h)
    ensures HasRecord(d, h) ==> HasRecord(d', h)
    ensures h !in d.alive ==> h !in d'.alive && (HasRecord(d', h) ==> HasRecord(d, h))
  {
    var es :| Effects(d, es, max) && Later(d, es) == d';
    SettledRun(d, es, max, h);
  }

  // Let the job write its record and exit anywhere between the poller's reads: a
  // poll that answers LOST is about a job that has left no record and never will.
  lemma LostMeansNoRecordEver(
    d0: Disk, d1: Disk, d2: Disk, d3: Disk, d4: Disk, later: Disk, max: int, h: Handle, reused: set<Handle>)
    requires Settled(d0, h)
    requires Reaches(d0, d1, max) && Reaches(d1, d2, max) && Reaches(d2, d3, max) && Reaches(d3, d4, max)
    requires Poll(d0, d1, d2, d3, d4, h, reused) == LOST && Reaches(d4, later, max)
    ensures !HasRecord(d4, h) && !HasRecord(later, h)
  {
    SettledReach(d0, d1, max, h);
    SettledReach(d1, d2, max, h);
    SettledReach(d2, d3, max, h);
    SettledReach(d3, d4, max, h);
    SettledReach(d4, later, max, h);
  }

  // Once a poll answers RESOLVED, every later one does.
  lemma ResolvedIsPermanent(d: Disk, later: Disk, max: int, h: Handle, reused: set<Handle>, again: set<Handle>)
    requires Settled(d, h) && Reaches(d, later, max) && StateOf(d, h, reused) == RESOLVED
    ensures StateOf(later, h, again) == RESOLVED
  {
    SettledReach(d, later, max, h);
  }

  // A submission that died before its process started leaves a directory that
  // reads as a running job for good: nothing but a person frees that slot.
  lemma {:induction false} DeadSubmissionHoldsItsSlot(d: Disk, es: seq<Effect>, max: int, h: Handle, reused: set<Handle>)
    requires Effects(d, es, max) && h in d.dirs && d.dirs[h] == JobDir(Written(false), false) && h !in d.alive
    requires !d.phase.Idle? ==> d.phase.handle != h
    ensures h in Live(Later(d, es), reused)
    decreases |es|
  {
    if es != [] {
      DeadSubmissionHoldsItsSlot(Apply(d, es[0]), es[1..], max, h, reused);
    }
  }
}
