/** The other half of the lock discipline: what stands behind a live lock, and what an action on
    a VM is therefore admitted or refused for. */
module LockLaws {
  import opened Wrappers
  import opened Model
  import opened CacheOps
  import opened Placement
  import opened VmRow
  import opened Inventory
  import opened Responses
  import opened Vms
  import opened HostActions
  import opened Worker
  import opened Organization
  import opened TagLaws
  import opened Invariants
  import opened Engine
  import opened PlaceShapes
  import opened Soundness
  import opened Lifecycle
  import opened Locks
  import ResponseSteps
  import SnapshotSteps
  import TagSteps

  // ---- what stands behind a lock -----------------------------------------------------------

  /** A live lock whose task, if it still exists, is open and works on that very VM. */
  ghost predicate BackedLock(s: State, v: Id)
    requires v in s.locks
  {
    var t := s.locks[v].task;
    t in s.tasks ==> Works(s, t) && s.tasks[t].targetId == v
  }

  ghost predicate Backed(s: State) {
    forall v :: LockLive(s.locks, v, s.now) ==> BackedLock(s, v)
  }

  /** A live lock whose task does not exist. */
  predicate Orphaned(s: State, v: Id) {
    LockLive(s.locks, v, s.now) && s.locks[v].task !in s.tasks
  }

  // The lock was there, and its task, if it exists, still works as it did.
  ghost predicate LockStays(s: State, s': State, v: Id)
    requires v in s'.locks
  {
    var t := s'.locks[v].task;
    && v in s.locks && s'.locks[v] == s.locks[v]
    && (t in s'.tasks ==> t in s.tasks && (Works(s, t) ==> Works(s', t)) && s'.tasks[t].targetId == s.tasks[t].targetId)
  }

  // No live lock is new, and none loses the work behind it.
  ghost predicate LocksStay(s: State, s': State) {
    s.now <= s'.now && forall v :: LockLive(s'.locks, v, s'.now) ==> LockStays(s, s', v)
  }

  lemma StayingIsBacked(s: State, s': State)
    requires Backed(s) && LocksStay(s, s')
    ensures Backed(s')
  {
    forall v | LockLive(s'.locks, v, s'.now) ensures BackedLock(s', v) {
      assert LockStays(s, s', v) && BackedLock(s, v);
    }
  }

  // ---- step by step ----------------------------------------------------------------------------

  ghost predicate Quieter(s: State, s': State) {
    && s.now <= s'.now
    && (forall v :: v in s'.locks ==> v in s.locks && s'.locks[v] == s.locks[v])
    && (forall t :: t in s'.tasks ==> t in s.tasks && s'.tasks[t] == s.tasks[t])
  }

  lemma QuieterStays(s: State, s': State)
    requires Quieter(s, s')
    ensures LocksStay(s, s')
  {
  }

  lemma ForgetIsQuieter(s: State, v: Id)
    ensures Quieter(s, ForgetSpec(s, v).state)
  {
    if ForgetSpec(s, v).result.Ok? {
      assert ForgetSpec(s, v).state.locks == s.locks - {v};
    }
  }

  lemma SnapshotIsQuieter(s: State, h: Id, items: seq<Item>)
    ensures Quieter(s, SnapshotSpec(s, h, items))
  {
    SnapshotSteps.SnapshotSurroundings(s, h, items);
  }

  lemma PlacesAreQuieter(s: State, a: Action)
    requires OfPlaces(a)
    ensures Quieter(s, Next(s, a))
  {
    PlacesShape(s, a);
  }

  lemma TaggingIsQuieter(s: State, r: TagRequest)
    requires Sound(s)
    ensures Quieter(s, TagSpec(s, r).state)
  {
    if TagSpec(s, r).result.Ok? { TagSteps.TaggingChangesTags(s, r); } else { TagSteps.RefusedTagging(s, r); }
  }

  lemma OthersAreQuieter(s: State, a: Action)
    requires Sound(s) && (OfPlaces(a) || a.Snapshot? || a.Forget? || a.Tagging? || a.Prune? || a.Tick? || a.ForceRelease?)
    ensures Quieter(s, Next(s, a))
  {
    match a
    case Snapshot(h, items) => SnapshotIsQuieter(s, h, items);
    case Forget(v) => ForgetIsQuieter(s, v);
    case Tagging(r) => TaggingIsQuieter(s, r);
    case Prune(_) =>
    case Tick(_) =>
    case ForceRelease(_) =>
    case _ => PlacesAreQuieter(s, a);
  }

  lemma EndedStays(s: State, h: Id, r: Response)
    requires Backed(s) && Known(s, h, r)
    ensures LocksStay(s, Ended(s, h, r))
  {
    var s' := Ended(s, h, r);
    EndedFields(s, h, r);
    forall v | LockLive(s'.locks, v, s'.now) ensures LockStays(s, s', v) {
      assert BackedLock(s, v);
      assert s.locks[v].task != r.task;
    }
  }

  lemma RunningStays(s: State, t: Id, task: Task)
    requires t in s.tasks && !Terminal(s.tasks[t].status) && !Terminal(task.status)
    requires task.kind == s.tasks[t].kind && task.target == s.tasks[t].target && task.targetId == s.tasks[t].targetId
    ensures LocksStay(s, s.(tasks := s.tasks[t := task]))
  {
  }

  lemma ResponseStays(s: State, h: Id, r: Response)
    requires Backed(s)
    ensures LocksStay(s, ResponseSpec(s, h, r))
  {
    if !Known(s, h, r) {
      QuieterStays(s, s);
    } else if StillRunning(s.tasks[r.task], r) {
      RunningStays(s, r.task, Progressed(s.tasks[r.task], r, s.now));
    } else {
      EndedStays(s, h, r);
    }
  }

  lemma SweepStays(s: State)
    requires Backed(s)
    ensures LocksStay(s, SweepSpec(s))
  {
    var s' := SweepSpec(s);
    forall v | LockLive(s'.locks, v, s'.now) ensures LockStays(s, s', v) {
      assert BackedLock(s, v);
    }
  }

  // A task that no lock names yet is added.
  lemma NewTaskStays(s: State, s': State, t: Id)
    requires Sound(s) && s'.now == s.now && s'.locks == s.locks && t >= s.nextId
    requires s'.tasks == s.tasks || (t in s'.tasks && s'.tasks == s.tasks[t := s'.tasks[t]])
    ensures LocksStay(s, s')
  {
    assert Holds(Ids, s);
  }

  lemma HostActionStays(s: State, h: Id, kind: Kind, published: bool)
    requires Sound(s)
    ensures LocksStay(s, HostActionSpec(s, h, kind, published).state)
  {
    QuieterStays(s, s);
    if h in s.hosts {
      HostEnqueueFields(s, h, kind, published);
      NewTaskStays(s, EnqueueHostSpec(s, h, kind, published).state, s.nextId);
    }
  }

  // ---- steps that take a lock ----------------------------------------------------------------------

  // Every live lock but that of `v` stays; that of `v` is the new task's.
  ghost predicate TakesLock(s: State, s': State, v: Id, t: Id) {
    && s'.now == s.now && t >= s.nextId && t in s'.tasks && s'.tasks == s.tasks[t := s'.tasks[t]]
    && s'.locks.Keys == s.locks.Keys + {v} && (forall x :: x in s.locks && x != v ==> s'.locks[x] == s.locks[x])
    && s'.locks[v].task == t && Works(s', t) && s'.tasks[t].targetId == v
  }

  lemma TakingIsBacked(s: State, s': State, v: Id, t: Id)
    requires Sound(s) && Backed(s) && TakesLock(s, s', v, t)
    ensures Backed(s')
    ensures forall x :: x != v && LockLive(s'.locks, x, s'.now) ==> LockStays(s, s', x)
  {
    assert Holds(Ids, s);
    forall x | LockLive(s'.locks, x, s'.now) ensures BackedLock(s', x) {
      if x != v { assert BackedLock(s, x); }
    }
  }

  lemma EnqueueTakesLock(s: State, v: Id, kind: Kind)
    requires v in s.vms && !ReadOnly(kind)
    ensures TakesLock(s, EnqueueSpec(s, v, kind, true).state, v, s.nextId)
  {
  }

  lemma ReadOnlyEnqueue(s: State, v: Id, kind: Kind)
    requires v in s.vms && ReadOnly(kind)
    ensures var s' := EnqueueSpec(s, v, kind, true).state;
      s'.now == s.now && s'.locks == s.locks && s.nextId in s'.tasks && s'.tasks == s.tasks[s.nextId := s'.tasks[s.nextId]]
  {
  }

  // After an enqueue: the lock of `v` is the new task's, or nothing new is locked.
  lemma EnqueueLocks(s: State, v: Id, kind: Kind, published: bool)
    requires Sound(s) && v in s.vms
    ensures var s' := EnqueueSpec(s, v, kind, published).state;
      LocksStay(s, s') || TakesLock(s, s', v, s.nextId)
  {
    if !published {
      RefusedEnqueueLeaves(s, v, kind);
      QuieterStays(s, EnqueueSpec(s, v, kind, published).state);
    } else if ReadOnly(kind) {
      ReadOnlyEnqueue(s, v, kind);
      NewTaskStays(s, EnqueueSpec(s, v, kind, published).state, s.nextId);
    } else {
      EnqueueTakesLock(s, v, kind);
    }
  }

  lemma ActionLocks(s: State, v: Id, kind: Kind, destination: string, published: bool)
    requires Sound(s)
    ensures var s' := ActionSpec(s, v, kind, destination, published).state;
      LocksStay(s, s') || TakesLock(s, s', v, s.nextId)
  {
    QuieterStays(s, s);
    if v in s.vms { EnqueueLocks(s, v, kind, published); }
  }

  lemma InsertLocks(s: State, h: Id, kind: Kind, columns: Columns)
    requires h in s.hosts && MakesVm(kind) && s.nextId !in s.locks
    ensures TakesLock(s, InsertSpec(s, h, kind, columns, true).state, s.nextId, s.nextId + 1)
  {
  }

  // A refused create: its lock names a task that never was.
  ghost predicate LeavesLock(s: State, s': State, v: Id) {
    && s'.now == s.now && s'.tasks == s.tasks && v !in s.locks && v in s'.locks && s'.locks[v].task !in s.tasks
    && LockLive(s'.locks, v, s'.now)
    && s'.locks.Keys == s.locks.Keys + {v} && (forall x :: x in s.locks ==> s'.locks[x] == s.locks[x])
  }

  lemma RefusedInsertLocks(s: State, h: Id, kind: Kind, columns: Columns)
    requires h in s.hosts && s.nextId !in s.locks && s.nextId + 1 !in s.tasks
    ensures LeavesLock(s, InsertSpec(s, h, kind, columns, false).state, s.nextId)
  {
  }

  lemma LeavingIsBacked(s: State, s': State, v: Id)
    requires Backed(s) && LeavesLock(s, s', v)
    ensures Backed(s') && Orphaned(s', v)
    ensures forall x :: x != v && LockLive(s'.locks, x, s'.now) ==> LockStays(s, s', x)
  {
    forall x | LockLive(s'.locks, x, s'.now) ensures BackedLock(s', x) {
      if x != v { assert BackedLock(s, x); }
    }
  }

  lemma ProvisionLocks(s: State, h: Id, origin: Origin, destination: string, columns: Columns, published: bool)
    requires Sound(s)
    ensures var s', refused := ProvisionSpec(s, h, origin, destination, columns, published).state,
                             ProvisionRefusal(s, h, origin, destination).Some?;
      if refused then s' == s
      else if published then TakesLock(s, s', s.nextId, s.nextId + 1) else LeavesLock(s, s', s.nextId)
  {
    if ProvisionRefusal(s, h, origin, destination).None? {
      NewIdsAreFree(s);
      if published {
        InsertLocks(s, h, ProvisionKind(origin), columns);
      } else {
        RefusedInsertLocks(s, h, ProvisionKind(origin), columns);
      }
    }
  }

  // ---- every run ---------------------------------------------------------------------------------------

  lemma StepStays(s: State, a: Action)
    requires Sound(s) && Backed(s) && !a.ActOnVm? && !a.ProvisionVm?
    ensures LocksStay(s, Next(s, a))
  {
    match a
    case Respond(h, r) => ResponseStays(s, h, r);
    case Sweep => SweepStays(s);
    case ActOnHost(h, kind, published) => HostActionStays(s, h, kind, published);
    case _ => OthersAreQuieter(s, a); QuieterStays(s, Next(s, a));
  }

  lemma ActionIsBacked(s: State, v: Id, kind: Kind, destination: string, published: bool)
    requires Sound(s) && Backed(s)
    ensures Backed(ActionSpec(s, v, kind, destination, published).state)
  {
    var s' := ActionSpec(s, v, kind, destination, published).state;
    ActionLocks(s, v, kind, destination, published);
    if LocksStay(s, s') { StayingIsBacked(s, s'); } else { TakingIsBacked(s, s', v, s.nextId); }
  }

  lemma ProvisionIsBacked(s: State, h: Id, origin: Origin, destination: string, columns: Columns, published: bool)
    requires Sound(s) && Backed(s)
    ensures Backed(ProvisionSpec(s, h, origin, destination, columns, published).state)
  {
    var s' := ProvisionSpec(s, h, origin, destination, columns, published).state;
    ProvisionLocks(s, h, origin, destination, columns, published);
    if ProvisionRefusal(s, h, origin, destination).None? {
      if published { TakingIsBacked(s, s', s.nextId, s.nextId + 1); } else { LeavingIsBacked(s, s', s.nextId); }
    }
  }

  lemma NextIsBacked(s: State, a: Action)
    requires Sound(s) && Backed(s)
    ensures Backed(Next(s, a))
  {
    match a
    case ActOnVm(v, kind, destination, published) => ActionIsBacked(s, v, kind, destination, published);
    case ProvisionVm(h, origin, destination, columns, published) =>
      ProvisionIsBacked(s, h, origin, destination, columns, published);
    case _ => StepStays(s, a); StayingIsBacked(s, Next(s, a));
  }

  /** In every run, force-release and late sweeps included: a live lock has an open task behind
      it that works on that VM, or its task no longer exists. */
  lemma {:induction false} RunIsBacked(cfg: Settings, now: Time, actions: seq<Action>)
    ensures Backed(Run(Empty(cfg, now), actions))
  {
    if actions != [] {
      RunIsBacked(cfg, now, actions[..|actions| - 1]);
      RunSound(cfg, now, actions[..|actions| - 1]);
      NextIsBacked(Run(Empty(cfg, now), actions[..|actions| - 1]), actions[|actions| - 1]);
    }
  }

  // ---- how a lock comes to have no task ------------------------------------------------------------------

  /** A create or clone the broker did not take. */
  predicate RefusedCreate(s: State, a: Action, v: Id) {
    a.ProvisionVm? && ProvisionRefusal(s, a.host, a.origin, a.destination).None? && !a.published && v == s.nextId
  }

  /** The removal of the host that was to do the work. */
  predicate RemovedHost(s: State, a: Action, v: Id) {
    && a.RemoveHost? && a.host in s.hosts && LockLive(s.locks, v, s.now)
    && s.locks[v].task in s.tasks && s.tasks[s.locks[v].task].host == a.host
  }

  lemma StayingOrphans(s: State, a: Action, v: Id)
    requires Sound(s) && LocksStay(s, Next(s, a)) && !a.RemoveHost?
    requires Orphaned(Next(s, a), v)
    ensures Orphaned(s, v)
  {
    assert LockStays(s, Next(s, a), v);
    TasksStay(s, a);
  }

  lemma RemovalOrphans(s: State, h: Id, v: Id)
    requires h in s.hosts
    ensures Orphaned(RemoveHostSpec(s, h).state, v)
      <==> Orphaned(s, v) || (LockLive(s.locks, v, s.now) && s.locks[v].task in s.tasks && s.tasks[s.locks[v].task].host == h)
  {
    RemovalFields(s, h);
  }

  lemma RemovalFields(s: State, h: Id)
    requires h in s.hosts
    ensures var s' := RemoveHostSpec(s, h).state;
      s'.locks == s.locks && s'.now == s.now && s'.tasks == s.tasks - TasksOf(s.tasks, h)
  {
  }

  lemma TakingOrphans(s: State, s': State, v: Id, t: Id, x: Id)
    requires Sound(s) && Backed(s) && TakesLock(s, s', v, t) && Orphaned(s', x)
    ensures Orphaned(s, x)
  {
    TakingIsBacked(s, s', v, t);
    assert x != v && LockStays(s, s', x);
  }

  lemma LeavingOrphans(s: State, s': State, v: Id, x: Id)
    requires Backed(s) && LeavesLock(s, s', v) && x != v
    ensures Orphaned(s', x) <==> Orphaned(s, x)
  {
  }

  lemma WorkOrphans(s: State, a: Action, v: Id)
    requires Sound(s) && Backed(s) && (a.ActOnVm? || a.ProvisionVm?)
    ensures Orphaned(Next(s, a), v) && !Orphaned(s, v) <==> RefusedCreate(s, a, v)
  {
    match a
    case ActOnVm(u, kind, destination, published) => ActionOrphans(s, u, kind, destination, published, v);
    case ProvisionVm(h, origin, destination, columns, published) =>
      ProvisionOrphans(s, h, origin, destination, columns, published, v);
  }

  lemma ActionOrphans(s: State, u: Id, kind: Kind, destination: string, published: bool, v: Id)
    requires Sound(s) && Backed(s)
    ensures Orphaned(ActionSpec(s, u, kind, destination, published).state, v) ==> Orphaned(s, v)
  {
    var a := ActOnVm(u, kind, destination, published);
    ActionLocks(s, u, kind, destination, published);
    if Orphaned(Next(s, a), v) {
      if LocksStay(s, Next(s, a)) { StayingOrphans(s, a, v); } else { TakingOrphans(s, Next(s, a), u, s.nextId, v); }
    }
  }

  lemma ProvisionOrphans(s: State, h: Id, origin: Origin, destination: string, columns: Columns, published: bool, v: Id)
    requires Sound(s) && Backed(s)
    ensures Orphaned(ProvisionSpec(s, h, origin, destination, columns, published).state, v) && !Orphaned(s, v)
      <==> ProvisionRefusal(s, h, origin, destination).None? && !published && v == s.nextId
  {
    var s' := ProvisionSpec(s, h, origin, destination, columns, published).state;
    ProvisionLocks(s, h, origin, destination, columns, published);
    if ProvisionRefusal(s, h, origin, destination).None? {
      if published {
        if Orphaned(s', v) { TakingOrphans(s, s', s.nextId, s.nextId + 1, v); }
      } else {
        LeavingIsBacked(s, s', s.nextId);
        if v != s.nextId { LeavingOrphans(s, s', s.nextId, v); }
      }
    }
  }

  /** A live lock loses, or never gets, the task behind it in exactly two ways: a create the
      broker refuses, and the removal of the task's host. */
  lemma OrphanLockExactly(s: State, a: Action, v: Id)
    requires Sound(s) && Backed(s)
    ensures Orphaned(Next(s, a), v) && !Orphaned(s, v) <==> RefusedCreate(s, a, v) || RemovedHost(s, a, v)
  {
    if a.ActOnVm? || a.ProvisionVm? {
      WorkOrphans(s, a, v);
    } else if a.RemoveHost? {
      if a.host in s.hosts { RemovalOrphans(s, a.host, v); }
    } else {
      StepStays(s, a);
      if Orphaned(Next(s, a), v) { StayingOrphans(s, a, v); }
    }
  }

  // ---- what an action is admitted for --------------------------------------------------------------------

  /** Nothing works on the VM, and no orphaned lock is left on it. */
  ghost predicate Idle(s: State, v: Id) {
    !Orphaned(s, v) && !exists t :: Works(s, t) && s.tasks[t].targetId == v
  }

  lemma LockMeansBusy(s: State, v: Id)
    requires Exclusive(s) && Backed(s) && v in s.vms
    ensures LockLive(s.locks, v, s.now) <==> !Idle(s, v)
  {
    if LockLive(s.locks, v, s.now) { assert BackedLock(s, v); }
  }

  /** The kinds that are not actions on one existing VM. */
  predicate OfSomethingElse(kind: Kind) {
    match kind
    case VmCreate | VmClone | VmBatchStart | VmBatchStop => true
    case HostUpdateAgent | Suspend | SuspendDrain | Resume | ResumeFallback | HostRestart => true
    case RefreshHardware | RefreshInventory => true
    case _ => false
  }

  /** The host's agent was heard of within the time allowed. */
  predicate HeardOf(s: State, h: Id) {
    h in s.hosts && s.hosts[h].lastSeen.Some? && s.hosts[h].lastSeen.value >= s.now - s.cfg.offlineAfter * 1_000_000
  }

  /** The VM, its host and the request are in order, whatever else is going on. */
  predicate InOrder(s: State, v: Id, kind: Kind, destination: string) {
    && !OfSomethingElse(kind) && v in s.vms && s.vms[v].guid.Some? && HeardOf(s, s.vms[v].host)
    && (kind.VmMigrate? ==> HighlyAvailable in s.vms[v].columns && s.vms[v].columns[HighlyAvailable] == Bool(true))
    && (kind.VmMove? ==> NormPath(destination) != "" && HostAllows(s.hosts[s.vms[v].host], NormPath(destination)))
  }

  lemma InOrderExactly(s: State, v: Id, kind: Kind, destination: string)
    ensures Refusal(s, v, kind, destination).None? <==> InOrder(s, v, kind, destination)
  {
    ActionKinds(kind);
  }

  lemma ActionKinds(kind: Kind)
    ensures IsVmAction(kind) <==> !OfSomethingElse(kind)
  {
  }

  /** Under the lock discipline, an action on a VM is admitted exactly when the request is in
      order, nothing works on the VM unless the action only reads, and the broker takes it; it is
      refused as locked exactly when it is in order and something does. */
  lemma ActionAdmittedExactly(s: State, v: Id, kind: Kind, destination: string, published: bool)
    requires Exclusive(s) && Backed(s)
    ensures var r := ActionSpec(s, v, kind, destination, published).result;
      && (r.Ok? <==> InOrder(s, v, kind, destination) && (ReadOnly(kind) || Idle(s, v)) && published)
      && (r == Err(VmLocked) <==> InOrder(s, v, kind, destination) && !ReadOnly(kind) && !Idle(s, v))
  {
    InOrderExactly(s, v, kind, destination);
    if v in s.vms { LockMeansBusy(s, v); }
    RefusalIsNotLock(s, v, kind, destination);
  }

  lemma RefusalIsNotLock(s: State, v: Id, kind: Kind, destination: string)
    ensures Refusal(s, v, kind, destination) != Some(VmLocked)
  {
  }

  /** ... in every run without force-release and with sweeps less than a minute apart. */
  lemma ActionAdmittedInRuns(cfg: Settings, now: Time, actions: seq<Action>, v: Id, kind: Kind, destination: string,
                             published: bool, s: State)
    requires LegalRun(World(Empty(cfg, now), now), actions) && s == Steps(World(Empty(cfg, now), now), actions).s
    ensures var r := ActionSpec(s, v, kind, destination, published).result;
      && (r.Ok? <==> InOrder(s, v, kind, destination) && (ReadOnly(kind) || Idle(s, v)) && published)
      && (r == Err(VmLocked) <==> InOrder(s, v, kind, destination) && !ReadOnly(kind) && !Idle(s, v))
  {
    LocksAreExclusive(cfg, now, actions);
    StepsAreRun(World(Empty(cfg, now), now), actions);
    RunIsBacked(cfg, now, actions);
    ActionAdmittedExactly(s, v, kind, destination, published);
  }

  lemma {:induction false} StepsAreRun(w: World, actions: seq<Action>)
    ensures Steps(w, actions).s == Run(w.s, actions)
  {
    if actions != [] { StepsAreRun(w, actions[..|actions| - 1]); }
  }
}
