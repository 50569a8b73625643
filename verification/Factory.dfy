// The registry and the local substrate together, sharing one process: a death
// stops both halves of a submission at once. What the registry assumes of a
// substrate is proved of this one.
module Factory {
  import opened Prelude
  import R = RegistryProtocol
  import D = LocalDisk
  import opened RegistryLog
  import opened RegistryTheorems

  datatype Plant = Plant(r: R.State, d: D.Disk)

  datatype Move =
    | Registry(a: R.Action)
    | World(e: D.Effect)
    | CallSubstrate
    | Begin(handle: Handle)
    | Work(e: D.Effect)
    | Launch
    | Return
    | Refuse
    | SeenBefore
    | Break
    | CrashBoth(a: R.Action, e: D.Effect)

  // Registry steps in which the substrate has no part.
  ghost predicate NoSubstrate(a: R.Action)
  {
    !a.Call? && !a.Start? && !a.Answer? && !a.Decline? && !a.Fail? && !a.Crash? && a != R.Tear(true)
  }

  ghost function RegistryPart(f: Plant, m: Move): Option<R.Action>
  {
    match m
    case Registry(a) => Some(a)
    case CallSubstrate => Some(R.Call)
    case Launch => Some(R.Start)
    case Return => if f.d.phase.Running? then Some(R.Answer(f.d.phase.handle)) else None
    case Refuse => Some(R.Decline)
    case SeenBefore =>
      if f.r.stage.Calling? && f.r.stage.key in f.d.markers && f.d.markers[f.r.stage.key].Names?
      then Some(R.Answer(f.d.markers[f.r.stage.key].handle)) else Some(R.Fail)
    case Break => Some(R.Fail)
    case CrashBoth(a, e) => Some(a)
    case _ => None
  }

  ghost function DiskPart(f: Plant, m: Move): Option<D.Effect>
  {
    match m
    case World(e) => Some(e)
    case Begin(handle) => if f.r.stage.Calling? then Some(D.MakeDir(Some(f.r.stage.key), handle)) else None
    case Work(e) => Some(e)
    case Launch => Some(D.StartProcess)
    case Return => Some(D.WritePid)
    case Break => Some(D.Die)
    case CrashBoth(a, e) => Some(e)
    case _ => None
  }

  // When a move can happen. Nothing is said here of fresh handles, nor of what
  // declining means: only of files, processes and the lock.
  ghost predicate Allowed(c: R.Caps, max: int, f: Plant, m: Move)
  {
    var calling := f.r.stage.Calling?;
    match m
    case Registry(a) => NoSubstrate(a) && R.Enabled(c, f.r, a)
    case World(e) => (e.Garble? || e.LeaveRecord? || e.Exit?) && D.Possible(f.d, e, max)
    case CallSubstrate => R.Enabled(c, f.r, R.Call)
    case Begin(handle) => calling && f.d.phase.Idle? && D.Possible(f.d, D.MakeDir(Some(f.r.stage.key), handle), max)
    case Work(e) => calling && (e.WriteMeta? || e.WriteMarker?) && D.Possible(f.d, e, max)
    case Launch => calling && D.Possible(f.d, D.StartProcess, max)
    case Return => calling && D.Possible(f.d, D.WritePid, max)
    case Refuse => calling && f.d.phase.Idle? && f.r.stage.key !in f.d.markers
    case SeenBefore => calling && f.d.phase.Idle? && f.r.stage.key in f.d.markers
    case Break => calling
    case CrashBoth(a, e) =>
      && (a == R.Crash || (a == R.Tear(true) && !f.r.stage.Free?))
      && (e.Die? || e.DieWritingMeta? || e.DieWritingMarker? || e.DieWritingPid?) && D.Possible(f.d, e, max)
  }

  ghost function Make(f: Plant, m: Move): Plant
  {
    Plant(
      match RegistryPart(f, m) case Some(a) => R.Do(f.r, a) case None => f.r,
      match DiskPart(f, m) case Some(e) => D.Apply(f.d, e) case None => f.d)
  }

  ghost predicate Opening(f: Plant)
  {
    && R.Initial(f.r) && f.d.phase.Idle? && f.d.spawns == [] && f.d.markers == map[]
    && Replay(f.r.log.rows).jobs.Keys <= f.d.dirs.Keys
  }

  ghost predicate History(c: R.Caps, max: int, f: Plant, moves: seq<Move>)
    decreases |moves|
  {
    moves == [] || (Allowed(c, max, f, moves[0]) && History(c, max, Make(f, moves[0]), moves[1..]))
  }

  ghost function Outcome(f: Plant, moves: seq<Move>): Plant
    decreases |moves|
  {
    if moves == [] then f else Outcome(Make(f, moves[0]), moves[1..])
  }

  // ---- how the halves fit together -----------------------------------------

  ghost predicate BoundToOwnProcess(v: View, d: D.Disk)
  {
    forall k :: k in v.held && v.held[k].handle.Some? ==> D.Spawn(Some(k), v.held[k].handle.value) in d.spawns
  }

  ghost predicate Linked(f: Plant)
  {
    var r, d := f.r, f.d;
    && (forall i :: 0 <= i < |d.spawns| ==> d.spawns[i].key.Some? && d.spawns[i].key.value in r.started)
    && (forall k :: k in r.started ==> D.SpawnedKey(d, k))
    && (forall k :: k in d.markers ==> k in r.calls)
    && Replay(r.log.rows).jobs.Keys <= d.dirs.Keys
    && (!d.phase.Idle? ==> r.stage.Calling? && d.phase.key == Some(r.stage.key) && d.phase.handle !in Replay(r.log.rows).jobs)
    && (r.stage.Calling? && d.phase.Idle? ==> r.stage.key !in d.markers)
    && (r.stage.Answered? ==> r.stage.handle in d.dirs && D.Spawn(Some(r.stage.key), r.stage.handle) in d.spawns)
    && BoundToOwnProcess(Replay(r.log.rows), d)
  }

  lemma JobsAfter(c: R.Caps, s: R.State, a: R.Action)
    requires R.StageFits(c, s) && R.Enabled(c, s, a)
    ensures var v, v' := Replay(s.log.rows), Replay(R.Do(s, a).log.rows);
            && (v'.jobs.Keys ==
                if a.Bind? && !s.log.torn && s.stage.key in v.held then v.jobs.Keys + {s.stage.handle} else v.jobs.Keys)
            && (forall k :: k in v'.held && v'.held[k].handle.Some? ==>
                  || (k in v.held && v.held[k].handle == v'.held[k].handle)
                  || (a.Bind? && s.stage == R.Answered(k, v'.held[k].handle.value)))
  {
    R.RowsAfter(s, a);
    if R.RowOf(s, a).Some? {
      R.RowIsFit(c, s, a);
    }
  }

  // The local substrate never answers with a handle in use, never declines a key
  // it started, and is never asked twice: so each move is a registry step or none.
  lemma MoveIsARegistryStep(c: R.Caps, max: int, f: Plant, m: Move)
    requires R.StageFits(c, f.r) && D.OncePerKey(f.d) && Linked(f) && Allowed(c, max, f, m)
    ensures RegistryPart(f, m).Some? ==> R.Enabled(c, f.r, RegistryPart(f, m).value)
    ensures !m.SeenBefore?
  {
  }

  lemma SameSpawns(d: D.Disk, d': D.Disk)
    requires d'.spawns == d.spawns
    ensures forall k :: D.SpawnedKey(d, k) <==> D.SpawnedKey(d', k)
  {
  }

  lemma KeepLinkedRegistry(c: R.Caps, max: int, f: Plant, a: R.Action)
    requires R.StageFits(c, f.r) && R.Accounted(f.r) && Linked(f) && Allowed(c, max, f, Registry(a))
    ensures Linked(Make(f, Registry(a)))
  {
    JobsAfter(c, f.r, a);
  }

  lemma KeepLinkedDisk(c: R.Caps, max: int, f: Plant, m: Move)
    requires R.StageFits(c, f.r) && D.OncePerKey(f.d) && Linked(f) && Allowed(c, max, f, m)
    requires m.World? || m.Begin? || m.Work?
    ensures Linked(Make(f, m))
  {
    SameSpawns(f.d, Make(f, m).d);
  }

  lemma KeepLinkedLaunch(c: R.Caps, max: int, f: Plant)
    requires D.OncePerKey(f.d) && Linked(f) && Allowed(c, max, f, Launch)
    ensures Linked(Make(f, Launch))
  {
    var f' := Make(f, Launch);
    assert f'.r.log == f.r.log;
    assert f'.d.spawns[|f.d.spawns|].key == Some(f.r.stage.key);
    forall k | D.SpawnedKey(f.d, k) ensures D.SpawnedKey(f'.d, k) {
      var i :| 0 <= i < |f.d.spawns| && f.d.spawns[i].key == Some(k);
      assert f'.d.spawns[i].key == Some(k);
    }
  }

  lemma KeepLinkedCall(c: R.Caps, max: int, f: Plant)
    requires R.StageFits(c, f.r) && Linked(f) && Allowed(c, max, f, CallSubstrate)
    ensures Linked(Make(f, CallSubstrate))
  {
    var f' := Make(f, CallSubstrate);
    R.RowsAfter(f.r, R.Call);
    assert f'.d == f.d && f'.r.log == f.r.log && f'.r.started == f.r.started;
    assert forall k :: k in f.r.calls ==> k in f'.r.calls;
  }

  lemma KeepLinkedReturn(c: R.Caps, max: int, f: Plant)
    requires Linked(f) && Allowed(c, max, f, Return)
    requires f.d.phase.handle in f.d.dirs && D.Spawn(f.d.phase.key, f.d.phase.handle) in f.d.spawns
    ensures Linked(Make(f, Return))
  {
    var f' := Make(f, Return);
    R.RowsAfter(f.r, RegistryPart(f, Return).value);
    assert f'.r.log == f.r.log && f'.r.calls == f.r.calls && f'.d.markers == f.d.markers;
    assert f'.d.spawns == f.d.spawns && f'.d.dirs.Keys == f.d.dirs.Keys;
    SameSpawns(f.d, f'.d);
  }

  lemma KeepLinkedEnd(c: R.Caps, max: int, f: Plant, m: Move)
    requires R.StageFits(c, f.r) && R.Accounted(f.r) && D.OncePerKey(f.d) && Linked(f) && Allowed(c, max, f, m)
    requires m.Refuse? || m.Break? || m.CrashBoth?
    ensures Linked(Make(f, m))
  {
    var f' := Make(f, m);
    JobsAfter(c, f.r, RegistryPart(f, m).value);
    assert f'.d.spawns == f.d.spawns;
    SameSpawns(f.d, f'.d);
  }

  lemma KeepLinkedBoth(c: R.Caps, max: int, f: Plant, m: Move)
    requires R.StageFits(c, f.r) && R.Accounted(f.r) && D.OncePerKey(f.d) && Linked(f) && Allowed(c, max, f, m)
    requires m.CallSubstrate? || m.Return? || m.Refuse? || m.Break? || m.CrashBoth?
    ensures Linked(Make(f, m))
  {
    if m.CallSubstrate? {
      KeepLinkedCall(c, max, f);
    } else if m.Return? {
      KeepLinkedReturn(c, max, f);
    } else {
      KeepLinkedEnd(c, max, f, m);
    }
  }

  ghost predicate Sound(c: R.Caps, f: Plant)
  {
    R.Inv(c, f.r) && D.OncePerKey(f.d) && Linked(f)
  }

  lemma KeepLinked(c: R.Caps, max: int, f: Plant, m: Move)
    requires R.StageFits(c, f.r) && R.Accounted(f.r) && D.OncePerKey(f.d) && Linked(f) && Allowed(c, max, f, m)
    ensures Linked(Make(f, m))
  {
    MoveIsARegistryStep(c, max, f, m);
    if m.Registry? {
      KeepLinkedRegistry(c, max, f, m.a);
    } else if m.World? || m.Begin? || m.Work? {
      KeepLinkedDisk(c, max, f, m);
    } else if m.Launch? {
      KeepLinkedLaunch(c, max, f);
    } else {
      KeepLinkedBoth(c, max, f, m);
    }
  }

  lemma KeepSound(c: R.Caps, max: int, f: Plant, m: Move)
    requires Sound(c, f) && Allowed(c, max, f, m)
    ensures Sound(c, Make(f, m))
  {
    KeepLinked(c, max, f, m);
    MoveIsARegistryStep(c, max, f, m);
    if RegistryPart(f, m).Some? {
      R.Keep(c, f.r, RegistryPart(f, m).value);
    }
    if DiskPart(f, m).Some? {
      D.KeepOncePerKey(f.d, DiskPart(f, m).value, max);
    }
  }

  // The keys whose reservation was appended to a torn line along a history.
  ghost function SwallowedAlong(f: Plant, moves: seq<Move>): set<Key>
    decreases |moves|
  {
    if moves == [] then {}
    else SwallowedAt(f, moves[0]) + SwallowedAlong(Make(f, moves[0]), moves[1..])
  }

  ghost function SwallowedAt(f: Plant, m: Move): set<Key>
  {
    if m == Registry(R.Reserve) then SwallowedBy(f.r, R.Reserve) else {}
  }

  lemma NotSwallowed(c: R.Caps, max: int, f: Plant, m: Move)
    requires Allowed(c, max, f, m)
    ensures SwallowedAt(f, m) == if RegistryPart(f, m).Some? then SwallowedBy(f.r, RegistryPart(f, m).value) else {}
  {
  }

  // Everything the two do together is something the registry's protocol allows,
  // so each of its theorems holds with this substrate and no assumption on it.
  lemma {:induction false} RefinesTheRegistry(c: R.Caps, max: int, f: Plant, moves: seq<Move>) returns (actions: seq<R.Action>)
    requires Sound(c, f) && History(c, max, f, moves)
    ensures R.Run(c, f.r, actions) && R.After(f.r, actions) == Outcome(f, moves).r
    ensures Sound(c, Outcome(f, moves)) && Swallowed(f.r, actions) == SwallowedAlong(f, moves)
    decreases |moves|
  {
    if moves == [] {
      actions := [];
    } else {
      var f' := Make(f, moves[0]);
      KeepSound(c, max, f, moves[0]);
      var rest := RefinesTheRegistry(c, max, f', moves[1..]);
      actions := StepOrNone(f, moves[0]) + rest;
      JoinStep(c, max, f, moves[0], rest);
    }
  }

  ghost function StepOrNone(f: Plant, m: Move): seq<R.Action>
  {
    match RegistryPart(f, m) case Some(a) => [a] case None => []
  }

  lemma JoinStep(c: R.Caps, max: int, f: Plant, m: Move, rest: seq<R.Action>)
    requires R.StageFits(c, f.r) && D.OncePerKey(f.d) && Linked(f) && Allowed(c, max, f, m)
    requires R.Run(c, Make(f, m).r, rest)
    ensures var actions := StepOrNone(f, m) + rest;
            && R.Run(c, f.r, actions) && R.After(f.r, actions) == R.After(Make(f, m).r, rest)
            && Swallowed(f.r, actions) == SwallowedAt(f, m) + Swallowed(Make(f, m).r, rest)
  {
    MoveIsARegistryStep(c, max, f, m);
    NotSwallowed(c, max, f, m);
    if RegistryPart(f, m).Some? {
      OneStep(c, f.r, RegistryPart(f, m).value, rest);
    } else {
      assert [] + rest == rest;
    }
  }

  // What the log shows of a process: its reservation, charged, and bound to that
  // process's handle, still unaccounted for, or closed by a human.
  ghost predicate Shown(rows: seq<Event>, p: D.Spawn)
  {
    var v := Replay(rows);
    && p.key.Some? && p.key.value in v.held && IsCharged(v.held[p.key.value])
    && (|| (v.held[p.key.value].state == BOUND && v.held[p.key.value].handle == Some(p.handle))
        || p.key.value in Unaccounted(v)
        || (v.held[p.key.value].state == ABANDONED && Abandoned(p.key.value) in rows))
  }

  lemma SpawnIsShown(c: R.Caps, f: Plant, p: D.Spawn)
    requires R.Accounted(f.r) && Coherent(Replay(f.r.log.rows)) && D.OncePerKey(f.d) && Linked(f)
    requires p in f.d.spawns && p.key.Some? && p.key.value in Replay(f.r.log.rows).held
    ensures Shown(f.r.log.rows, p)
  {
    Tracked(c, f.r, p.key.value);
  }

  // Over every history with deaths anywhere: a key has at most one process, and
  // the log shows every process, except those whose reservation was appended to a
  // line that another writer left torn. It shows nothing of these but damage.
  lemma OneProcessPerKeyAllAccounted(c: R.Caps, max: int, f: Plant, moves: seq<Move>)
    requires Opening(f) && History(c, max, f, moves)
    ensures var rows, spawns := Outcome(f, moves).r.log.rows, Outcome(f, moves).d.spawns;
            && (forall i, j :: 0 <= i < j < |spawns| ==> spawns[i].key != spawns[j].key)
            && (forall p :: p in spawns ==>
                  p.key.Some? &&
                  if p.key.value in SwallowedAlong(f, moves) then p.key.value !in Replay(rows).held && Unreadable in rows
                  else Shown(rows, p))
  {
    InitiallyKept(c, f.r);
    LegacyHoldsNothing(f.r.log.rows);
    assert Sound(c, f);
    var actions := RefinesTheRegistry(c, max, f, moves);
    var end := Outcome(f, moves);
    forall p | p in end.d.spawns
      ensures p.key.Some? &&
              if p.key.value in SwallowedAlong(f, moves)
              then p.key.value !in Replay(end.r.log.rows).held && Unreadable in end.r.log.rows
              else Shown(end.r.log.rows, p)
    {
      NoInvisibleJob(c, f.r, actions, p.key.value);
      if p.key.value !in SwallowedAlong(f, moves) {
        SpawnIsShown(c, end, p);
      }
    }
  }
}
