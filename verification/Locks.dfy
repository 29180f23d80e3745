/** One VM, one operation at a time: the lock discipline over whole runs. */
module Locks {
  import opened Wrappers
  import opened Model
  import opened TaskTimeouts
  import opened CacheOps
  import opened Inventory
  import opened Responses
  import opened Vms
  import opened HostActions
  import opened Worker
  import opened Organization
  import opened TagLaws
  import opened Invariants
  import opened Engine
  import opened PlaceShapes
  import opened Soundness
  import InventoryLaws
  import RowSteps
  import ResponseSteps
  import SnapshotSteps
  import TagSteps

  // ---- runs with a sweeper --------------------------------------------------------------

  const SWEEP_GAP: Time := 60 * SECOND

  // The state, and when the sweeper last ran.
  datatype World = World(s: State, sweptAt: Time)

  /** No administrator's force-release, and less than a minute between two sweeps. */
  predicate Legal(w: World, a: Action) {
    !a.ForceRelease? && (a.Tick? ==> w.s.now + a.dt < w.sweptAt + SWEEP_GAP)
  }

  function Step(w: World, a: Action): World {
    World(Next(w.s, a), if a.Sweep? then w.s.now else w.sweptAt)
  }

  function Steps(w: World, actions: seq<Action>): World {
    if actions == [] then w else Step(Steps(w, actions[..|actions| - 1]), actions[|actions| - 1])
  }

  ghost predicate LegalRun(w: World, actions: seq<Action>) {
    forall i :: 0 <= i < |actions| ==> Legal(Steps(w, actions[..i]), actions[i])
  }

  // ---- the discipline ------------------------------------------------------------------------

  /** An open task that works on a VM under its lock. */
  predicate Works(s: State, t: Id) {
    Open(s, t) && s.tasks[t].target.OnVm? && !ReadOnly(s.tasks[t].kind)
  }

  /** The task holds its VM's lock, taken when it was queued, and was in time at the last sweep. */
  ghost predicate Guards(w: World, t: Id)
    requires t in w.s.tasks
  {
    var task := w.s.tasks[t];
    && task.targetId in w.s.locks && w.s.locks[task.targetId].task == t
    && w.s.locks[task.targetId].expiresAt == LockExpiry(w.s.cfg, task.kind, task.createdAt)
    && Deadline(w.s.cfg, task) >= w.sweptAt
  }

  ghost predicate Disciplined(w: World) {
    && w.sweptAt <= w.s.now < w.sweptAt + SWEEP_GAP
    && forall t :: Works(w.s, t) && w.s.tasks[t].targetId in w.s.vms ==> Guards(w, t)
  }

  /** Each existing VM has at most one open task working on it, and that task holds its live lock. */
  ghost predicate Exclusive(s: State) {
    && (forall t :: Works(s, t) && s.tasks[t].targetId in s.vms ==> HeldBy(s.locks, s.tasks[t].targetId, t, s.now))
    && (forall t, u :: Works(s, t) && Works(s, u) && SameTarget(s, t, u) ==> t == u)
  }

  // Both tasks are about one VM, which exists.
  predicate SameTarget(s: State, t: Id, u: Id)
    requires t in s.tasks && u in s.tasks
  {
    s.tasks[t].targetId == s.tasks[u].targetId && s.tasks[t].targetId in s.vms
  }

  lemma DisciplineIsExclusive(w: World)
    requires Disciplined(w)
    ensures Exclusive(w.s)
  {
  }

  // ---- steps that take no lock -----------------------------------------------------------------

  // Task `t` was working before, on the same VM, and if it held the lock it still does.
  ghost predicate StillWorks(s: State, s': State, t: Id)
    requires t in s'.tasks
  {
    var v := s'.tasks[t].targetId;
    && Works(s, t) && s.tasks[t].targetId == v
    && s.tasks[t].kind == s'.tasks[t].kind && s.tasks[t].createdAt == s'.tasks[t].createdAt
    && (v in s.vms || v >= s.nextId)
    && (v in s.locks && s.locks[v].task == t ==> v in s'.locks && s'.locks[v] == s.locks[v])
  }

  ghost predicate Quiet(s: State, s': State) {
    s'.cfg == s.cfg && forall t :: Works(s', t) && s'.tasks[t].targetId in s'.vms ==> StillWorks(s, s', t)
  }

  lemma QuietIsDisciplined(w: World, w': World)
    requires Sound(w.s) && Disciplined(w) && Quiet(w.s, w'.s)
    requires w'.sweptAt <= w'.s.now < w'.sweptAt + SWEEP_GAP
    requires w'.sweptAt == w.sweptAt
      || forall t :: Works(w'.s, t) && w'.s.tasks[t].targetId in w'.s.vms ==> Deadline(w'.s.cfg, w'.s.tasks[t]) >= w'.sweptAt
    ensures Disciplined(w')
  {
    assert Holds(Ids, w.s);
    forall t | Works(w'.s, t) && w'.s.tasks[t].targetId in w'.s.vms ensures Guards(w', t) {
      assert StillWorks(w.s, w'.s, t);
      assert Guards(w, t);
    }
  }

  // Tasks may only go, locks of existing VMs stay, and new VMs have new ids.
  ghost predicate Leaves(s: State, s': State) {
    && s'.cfg == s.cfg && s'.now == s.now
    && (forall t :: t in s'.tasks ==> t in s.tasks && s'.tasks[t] == s.tasks[t])
    && (forall v :: v in s'.vms ==> v in s.vms || v >= s.nextId)
    && (forall v :: v in s'.vms && v in s.locks ==> v in s'.locks && s'.locks[v] == s.locks[v])
  }

  lemma LeavingIsQuiet(s: State, s': State)
    requires Leaves(s, s')
    ensures Quiet(s, s')
  {
  }

  // ---- responses and sweeps ------------------------------------------------------------------------

  lemma EndedIsQuiet(s: State, h: Id, r: Response)
    requires Sound(s) && Known(s, h, r) && h in s.hosts
    ensures Quiet(s, Ended(s, h, r)) && Ended(s, h, r).now == s.now
  {
    var s' := Ended(s, h, r);
    EndedFields(s, h, r);
    EndedRowsOnlyGo(s, h, r);
    forall t | Works(s', t) && s'.tasks[t].targetId in s'.vms ensures StillWorks(s, s', t) {
      assert t != r.task;
    }
  }

  lemma EndedRowsOnlyGo(s: State, h: Id, r: Response)
    requires Sound(s) && Known(s, h, r) && h in s.hosts
    ensures Ended(s, h, r).vms.Keys <= s.vms.Keys
  {
    var t := Responses.Finished(s.tasks[r.task], r, s.now);
    EndedFields(s, h, r);
    ResponseSteps.SenderIsSynced(s, h);
    RowSteps.BlockRows(BlockOf(s), r, t, SenderOf(s, h));
    if !Worked(s, h, r).raised { ResponseSteps.StampsKeys(s.vms, r, t, Worked(s, h, r).vms); }
  }


  lemma RunningIsQuiet(s: State, t: Id, task: Task)
    requires t in s.tasks && !Terminal(s.tasks[t].status)
    requires task == s.tasks[t].(status := task.status, startedAt := task.startedAt, progress := task.progress)
    ensures Quiet(s, s.(tasks := s.tasks[t := task]))
  {
  }

  lemma ResponseIsQuiet(s: State, h: Id, r: Response)
    requires Sound(s)
    ensures Quiet(s, ResponseSpec(s, h, r)) && ResponseSpec(s, h, r).now == s.now
  {
    if Known(s, h, r) {
      ResponseSteps.SenderExists(s, h, r);
      if StillRunning(s.tasks[r.task], r) {
        RunningIsQuiet(s, r.task, Progressed(s.tasks[r.task], r, s.now));
      } else {
        EndedIsQuiet(s, h, r);
      }
    } else {
      LeavingIsQuiet(s, s);
    }
  }

  lemma SweepIsQuiet(s: State)
    ensures var s' := SweepSpec(s);
      && Quiet(s, s') && s'.now == s.now
      && forall t :: Works(s', t) && s'.tasks[t].targetId in s'.vms ==> Deadline(s'.cfg, s'.tasks[t]) >= s.now
  {
  }

  // ---- the steps that leave tasks and locks alone -----------------------------------------------------

  lemma SnapshotLeaves(s: State, h: Id, items: seq<Item>)
    requires Sound(s)
    ensures Leaves(s, SnapshotSpec(s, h, items))
  {
    SnapshotSteps.SnapshotSurroundings(s, h, items);
    if h in s.hosts {
      SnapshotSteps.SoundIsReadable(s, h);
      if WellFormed(items) {
        InventoryLaws.RowsReconciled(s, h, items);
        var vms := SnapshotSpec(s, h, items).vms;
        forall v | v in vms && v !in s.vms ensures v >= s.nextId { assert InventoryLaws.NewRow(s, h, items, vms, v); }
      } else {
        InventoryLaws.MalformedChangesNoRow(s, h, items);
      }
    }
  }


  lemma RowGone(s: State, s': State, v: Id)
    requires s' == s.(nextId := s'.nextId, events := s'.events, locks := s.locks - {v}, overlay := s'.overlay, vms := s.vms - {v})
    ensures Leaves(s, s')
  {
  }

  lemma ForgetLeaves(s: State, v: Id)
    ensures Leaves(s, ForgetSpec(s, v).state)
  {
    if ForgetSpec(s, v).result.Ok? { RowGone(s, ForgetSpec(s, v).state, v); }
  }

  lemma PlacesLeave(s: State, a: Action)
    requires OfPlaces(a)
    ensures Leaves(s, Next(s, a))
  {
    PlacesShape(s, a);
  }

  lemma TaggingLeaves(s: State, r: TagRequest)
    requires Sound(s)
    ensures Leaves(s, TagSpec(s, r).state)
  {
    if TagSpec(s, r).result.Ok? { TagSteps.TaggingChangesTags(s, r); } else { TagSteps.RefusedTagging(s, r); }
  }

  lemma OthersLeave(s: State, a: Action)
    requires Sound(s) && (OfPlaces(a) || a.Snapshot? || a.Forget? || a.Tagging? || a.Prune?)
    ensures Leaves(s, Next(s, a))
  {
    match a
    case Snapshot(h, items) => SnapshotLeaves(s, h, items);
    case Forget(v) => ForgetLeaves(s, v);
    case Tagging(r) => TaggingLeaves(s, r);
    case Prune(_) =>
    case _ => PlacesLeave(s, a);
  }

  // ---- queueing work -----------------------------------------------------------------------------------

  lemma HostTaskIsQuiet(s: State, h: Id, kind: Kind, published: bool)
    ensures Quiet(s, HostActionSpec(s, h, kind, published).state) && HostActionSpec(s, h, kind, published).state.now == s.now
  {
    if h in s.hosts { HostEnqueueIsQuiet(s, h, kind, published); }
    LeavingIsQuiet(s, s);
  }

  lemma HostTaskQueued(s: State, s': State, t: Id)
    requires s'.cfg == s.cfg && s'.vms == s.vms && s'.locks == s.locks
    requires s'.tasks == s.tasks || (t in s'.tasks && s'.tasks == s.tasks[t := s'.tasks[t]] && s'.tasks[t].target.OnHost?)
    ensures Quiet(s, s')
  {
  }

  lemma HostEnqueueIsQuiet(s: State, h: Id, kind: Kind, published: bool)
    requires h in s.hosts
    ensures Quiet(s, EnqueueHostSpec(s, h, kind, published).state) && EnqueueHostSpec(s, h, kind, published).state.now == s.now
  {
    HostEnqueueFields(s, h, kind, published);
    HostTaskQueued(s, EnqueueHostSpec(s, h, kind, published).state, s.nextId);
  }

  // What queueing an action on `v` does to tasks and locks.
  ghost predicate Takes(s: State, s': State, v: Id, t: Id, kind: Kind) {
    && s'.cfg == s.cfg && s'.now == s.now && s'.vms.Keys <= s.vms.Keys + {v}
    && t in s'.tasks && s'.tasks == s.tasks[t := s'.tasks[t]] && t !in s.tasks
    && s'.tasks[t].kind == kind && s'.tasks[t].targetId == v && s'.tasks[t].createdAt == s.now
    && (if ReadOnly(kind) then s'.locks == s.locks && v in s.vms else s'.locks == Acquired(s.locks, v, t, kind, s.cfg, s.now))
  }

  /** Work is only queued on a VM that nothing works on. */
  lemma TakingIsDisciplined(w: World, s': State, v: Id, t: Id, kind: Kind)
    requires Disciplined(w) && Takes(w.s, s', v, t, kind)
    requires ReadOnly(kind) || !LockLive(w.s.locks, v, w.s.now)
    requires v in w.s.vms || forall u :: u in w.s.tasks ==> w.s.tasks[u].targetId != v
    ensures Disciplined(World(s', w.sweptAt))
  {
    var w' := World(s', w.sweptAt);
    DisciplineIsExclusive(w);
    forall u | Works(s', u) && s'.tasks[u].targetId in s'.vms ensures Guards(w', u) {
      if u != t {
        assert s'.tasks[u] == w.s.tasks[u] && Works(w.s, u);
        assert Guards(w, u);
      }
    }
  }

  lemma EnqueueTakes(s: State, v: Id, kind: Kind)
    requires v in s.vms && s.nextId !in s.tasks
    ensures Takes(s, EnqueueSpec(s, v, kind, true).state, v, s.nextId, kind)
  {
  }

  lemma RefusedEnqueueLeaves(s: State, v: Id, kind: Kind)
    requires v in s.vms
    ensures var s' := EnqueueSpec(s, v, kind, false).state;
      && s'.tasks == s.tasks && s'.vms == s.vms && s'.cfg == s.cfg && s'.now == s.now
      && (if ReadOnly(kind) then s'.locks == s.locks else s'.locks == s.locks - {v})
  {
    assert (Acquired(s.locks, v, s.nextId, kind, s.cfg, s.now)) - {v} == s.locks - {v};
  }

  lemma FreeLockIsNobodys(w: World, s': State, v: Id)
    requires Sound(w.s) && Disciplined(w) && !LockLive(w.s.locks, v, w.s.now)
    requires s'.tasks == w.s.tasks && s'.vms == w.s.vms && s'.cfg == w.s.cfg && s'.now == w.s.now && s'.locks == w.s.locks - {v}
    ensures Disciplined(World(s', w.sweptAt))
  {
    DisciplineIsExclusive(w);
    forall t | Works(s', t) && s'.tasks[t].targetId in s'.vms ensures Guards(World(s', w.sweptAt), t) {
      assert Works(w.s, t) && Guards(w, t) && s'.tasks[t].targetId != v;
    }
  }

  lemma NewIdsAreFree(s: State)
    requires Sound(s)
    ensures s.nextId !in s.tasks && s.nextId + 1 !in s.tasks && s.nextId !in s.locks && s.nextId !in s.vms
    ensures forall t :: t in s.tasks ==> s.tasks[t].targetId != s.nextId
  {
    assert Holds(Ids, s);
  }

  lemma EnqueueIsDisciplined(w: World, v: Id, kind: Kind, published: bool)
    requires Sound(w.s) && Disciplined(w) && v in w.s.vms && (ReadOnly(kind) || !LockLive(w.s.locks, v, w.s.now))
    ensures Disciplined(World(EnqueueSpec(w.s, v, kind, published).state, w.sweptAt))
  {
    if published {
      NewIdsAreFree(w.s);
      EnqueueTakes(w.s, v, kind);
      TakingIsDisciplined(w, EnqueueSpec(w.s, v, kind, true).state, v, w.s.nextId, kind);
    } else {
      UnpublishedIsDisciplined(w, v, kind);
    }
  }

  lemma ActionIsDisciplined(w: World, v: Id, kind: Kind, destination: string, published: bool)
    requires Sound(w.s) && Disciplined(w)
    ensures Disciplined(World(ActionSpec(w.s, v, kind, destination, published).state, w.sweptAt))
  {
    if v in w.s.vms && (ReadOnly(kind) || !LockLive(w.s.locks, v, w.s.now)) {
      EnqueueIsDisciplined(w, v, kind, published);
    }
  }

  lemma UnpublishedIsDisciplined(w: World, v: Id, kind: Kind)
    requires Sound(w.s) && Disciplined(w) && v in w.s.vms && (ReadOnly(kind) || !LockLive(w.s.locks, v, w.s.now))
    ensures Disciplined(World(EnqueueSpec(w.s, v, kind, false).state, w.sweptAt))
  {
    var s' := EnqueueSpec(w.s, v, kind, false).state;
    RefusedEnqueueLeaves(w.s, v, kind);
    if ReadOnly(kind) {
      LeavingIsQuiet(w.s, s');
      QuietIsDisciplined(w, World(s', w.sweptAt));
    } else {
      FreeLockIsNobodys(w, s', v);
    }
  }

  lemma InsertTakes(s: State, h: Id, kind: Kind, columns: Columns)
    requires h in s.hosts && s.nextId !in s.locks && s.nextId + 1 !in s.tasks && !ReadOnly(kind)
    ensures Takes(s, InsertSpec(s, h, kind, columns, true).state, s.nextId, s.nextId + 1, kind)
  {
  }

  lemma RefusedInsertLeaves(s: State, h: Id, kind: Kind, columns: Columns)
    requires h in s.hosts && s.nextId !in s.vms
    ensures Leaves(s, InsertSpec(s, h, kind, columns, false).state)
  {
  }

  lemma InsertIsDisciplined(w: World, h: Id, kind: Kind, columns: Columns, published: bool)
    requires Sound(w.s) && Disciplined(w) && h in w.s.hosts && !ReadOnly(kind)
    ensures Disciplined(World(InsertSpec(w.s, h, kind, columns, published).state, w.sweptAt))
  {
    var s := w.s;
    NewIdsAreFree(s);
    if published {
      InsertTakes(s, h, kind, columns);
      TakingIsDisciplined(w, InsertSpec(s, h, kind, columns, true).state, s.nextId, s.nextId + 1, kind);
    } else {
      RefusedInsertLeaves(s, h, kind, columns);
      LeavingIsQuiet(s, InsertSpec(s, h, kind, columns, false).state);
      QuietIsDisciplined(w, World(InsertSpec(s, h, kind, columns, false).state, w.sweptAt));
    }
  }

  lemma ProvisionIsDisciplined(w: World, h: Id, origin: Origin, destination: string, columns: Columns, published: bool)
    requires Sound(w.s) && Disciplined(w)
    ensures Disciplined(World(ProvisionSpec(w.s, h, origin, destination, columns, published).state, w.sweptAt))
  {
    if h in w.s.hosts { InsertIsDisciplined(w, h, ProvisionKind(origin), columns, published); }
  }

  // ---- every legal run --------------------------------------------------------------------------------------

  lemma QuietStep(w: World, a: Action)
    requires Sound(w.s) && Disciplined(w) && Quiet(w.s, Next(w.s, a)) && Next(w.s, a).now == w.s.now && !a.Sweep?
    ensures Disciplined(Step(w, a))
  {
    QuietIsDisciplined(w, Step(w, a));
  }

  lemma StepIsDisciplined(w: World, a: Action)
    requires Sound(w.s) && Disciplined(w) && Legal(w, a)
    ensures Disciplined(Step(w, a))
  {
    match a
    case Tick(dt) => LeavingIsQuiet(w.s, w.s); QuietIsDisciplined(w, Step(w, a));
    case ActOnVm(v, kind, destination, published) => ActionIsDisciplined(w, v, kind, destination, published);
    case ProvisionVm(h, origin, destination, columns, published) =>
      ProvisionIsDisciplined(w, h, origin, destination, columns, published);
    case Respond(h, r) => ResponseIsQuiet(w.s, h, r); QuietStep(w, a);
    case Sweep => SweepIsQuiet(w.s); QuietIsDisciplined(w, Step(w, a));
    case ActOnHost(h, kind, published) => HostTaskIsQuiet(w.s, h, kind, published); QuietStep(w, a);
    case _ => OthersLeave(w.s, a); LeavingIsQuiet(w.s, Next(w.s, a)); QuietStep(w, a);
  }

  lemma {:induction false} LegalRunIsDisciplined(cfg: Settings, now: Time, actions: seq<Action>)
    requires LegalRun(World(Empty(cfg, now), now), actions)
    ensures var w := Steps(World(Empty(cfg, now), now), actions); Sound(w.s) && Disciplined(w)
  {
    var start := World(Empty(cfg, now), now);
    if actions == [] {
      EmptySound(cfg, now);
    } else {
      var init, a := actions[..|actions| - 1], actions[|actions| - 1];
      forall i | 0 <= i < |init| ensures Legal(Steps(start, init[..i]), init[i]) { assert init[..i] == actions[..i]; }
      LegalRunIsDisciplined(cfg, now, init);
      NextSound(Steps(start, init).s, a);
      StepIsDisciplined(Steps(start, init), a);
    }
  }

  /** In every run without force-release and with sweeps less than a minute apart, whatever
      responses come late, twice or out of order: each existing VM has at most one open task
      working on it, and that task still holds the VM's unexpired lock. */
  lemma LocksAreExclusive(cfg: Settings, now: Time, actions: seq<Action>)
    requires LegalRun(World(Empty(cfg, now), now), actions)
    ensures Exclusive(Steps(World(Empty(cfg, now), now), actions).s)
  {
    LegalRunIsDisciplined(cfg, now, actions);
    DisciplineIsExclusive(Steps(World(Empty(cfg, now), now), actions));
  }

  /** So a second operation is refused for as long as the first is open. */
  lemma SecondActionIsRefused(s: State, t: Id, kind: Kind, destination: string, published: bool)
    requires Exclusive(s) && Works(s, t) && s.tasks[t].targetId in s.vms && !ReadOnly(kind)
    ensures ActionSpec(s, s.tasks[t].targetId, kind, destination, published).result.Err?
    ensures ActionSpec(s, s.tasks[t].targetId, kind, destination, published).state == s
  {
  }

  /** Why force-release is excluded: it keeps the discipline exactly when nothing works on that
      VM; otherwise the next action starts beside the one that is open. */
  lemma ForceReleaseExactly(s: State, v: Id)
    requires Exclusive(s) && v in s.vms
    ensures Exclusive(Next(s, ForceRelease(v))) <==> !exists t :: Works(s, t) && s.tasks[t].targetId == v
  {
    var s' := s.(locks := s.locks - {v});
    forall t ensures Works(s, t) <==> Works(s', t) {}
    if t :| Works(s, t) && s.tasks[t].targetId == v {
      assert Works(s', t) && !HeldBy(s'.locks, v, t, s'.now);
    }
  }
}
