/** What an accepted request leaves, value by value. */
module ActionLaws {
  import opened Wrappers
  import opened Model
  import opened TaskTimeouts
  import opened CacheOps
  import opened Responses
  import opened Vms
  import opened HostActions
  import opened Invariants

  // ---- what users see while an action runs, and after it failed -----------------------------

  /** The state a VM is shown in while the action runs; only power actions and deletes change it. */
  function StateWhile(kind: Kind, before: string): string {
    match kind
    case VmStart => "Starting"
    case VmStop | VmShutdown => "Stopping"
    case VmRestart => "Restarting"
    case VmPause => "Pausing"
    case VmDelete => "Deleting"
    case _ => before
  }

  /** The state a VM is left in when the action failed: a delete stays as it was shown. */
  function StateAfterFailure(kind: Kind, before: string): string {
    match kind
    case VmStart => "Off"
    case VmStop | VmShutdown | VmRestart | VmPause => "Running"
    case VmDelete => "Deleting"
    case _ => before
  }

  predicate PowerOrDelete(kind: Kind) {
    kind.VmStart? || kind.VmStop? || kind.VmShutdown? || kind.VmRestart? || kind.VmPause? || kind.VmDelete?
  }

  lemma TransitionalShows(kind: Kind, before: string)
    ensures Transitional(kind).Some? <==> PowerOrDelete(kind)
    ensures StateWhile(kind, before) == if Transitional(kind).Some? then Transitional(kind).value else before
  {
  }

  lemma RevertedShows(kind: Kind, before: string)
    ensures StateAfterFailure(kind, before) == if Reverted(kind).Some? then Reverted(kind).value else StateWhile(kind, before)
  {
  }

  /** How long the deadline of each kind is. */
  lemma DeadlineTable(cfg: Settings, kind: Kind)
    ensures var seconds := TaskTimeoutSeconds(cfg, kind);
      var own := match kind
                 case VmShutdown => 900
                 case HostUpdateAgent => 1800
                 case VmCreate | VmClone | VmMove | VmRename | VmEdit | VmExportTemplate | VmBatchStart | VmBatchStop => 2100
                 case _ => 0;
      seconds >= own && seconds >= cfg.taskTimeout && (seconds == own || seconds == cfg.taskTimeout)
  {
  }

  // ---- actions on a VM ------------------------------------------------------------------------

  // The VM and its overlay entry while the action runs.
  ghost predicate VmShows(s: State, s': State, v: Id, kind: Kind)
    requires v in s.vms
  {
    var state := StateWhile(kind, s.vms[v].state);
    && s'.vms == s.vms[v := s.vms[v].(state := state)]
    && s'.overlay == if PowerOrDelete(kind) then s.overlay[v := Cached(state, s.now + s.cfg.stateTtl * 1_000_000)] else s.overlay
  }

  // One queued task, and but for a refresh its pending event and its lock.
  ghost predicate VmWorkQueued(s: State, s': State, v: Id, kind: Kind, t: Id)
    requires v in s.vms
  {
    var vm := s.vms[v];
    && t == s.nextId
    && s'.tasks == s.tasks[t := Task(kind, Queued, OnVm, v, vm.host, s.now, None, None, Some(0), None)]
    && s'.events == (if kind.RefreshStatus? then s.events
                     else s.events[t + 1 := Event(s.now, OfTask(kind), v, Some(vm.host), vm.cluster, Some(t), Pending, None)])
    && s'.locks == (if kind.RefreshStatus? then s.locks
                    else s.locks[v := Lock(t, kind, s.now + (TaskTimeoutSeconds(s.cfg, kind) + 60) * 1_000_000)])
  }

  lemma QueuedShows(s: State, v: Id, kind: Kind)
    requires v in s.vms
    ensures VmShows(s, EnqueueSpec(s, v, kind, true).state, v, kind)
  {
    RowShows(s.vms[v], kind);
    OverlayShows(s.overlay, v, kind, s.vms[v].state, s.cfg, s.now);
  }

  lemma RowShows(vm: Vm, kind: Kind)
    ensures Optimistic(vm, kind) == vm.(state := StateWhile(kind, vm.state))
  {
    TransitionalShows(kind, vm.state);
  }

  lemma OverlayShows(overlay: map<Id, Cached>, v: Id, kind: Kind, before: string, cfg: Settings, now: Time)
    ensures OptimisticOverlay(overlay, v, kind, cfg, now)
      == if PowerOrDelete(kind) then overlay[v := Cached(StateWhile(kind, before), now + cfg.stateTtl * 1_000_000)] else overlay
  {
    TransitionalShows(kind, before);
  }

  lemma QueuedWork(s: State, v: Id, kind: Kind)
    requires v in s.vms
    ensures VmWorkQueued(s, EnqueueSpec(s, v, kind, true).state, v, kind, s.nextId)
  {
  }

  /** An accepted action: the VM is shown as starting, stopping and so on, in the row and in the
      overlay for its lifetime; one task is queued on the VM's host; and, but for a refresh, its
      pending event and its lock (deadline plus a minute) are there. */
  lemma AcceptedActionLeaves(s: State, v: Id, kind: Kind, destination: string) returns (t: Id)
    requires ActionSpec(s, v, kind, destination, true).result.Ok?
    ensures v in s.vms && ActionSpec(s, v, kind, destination, true).result == Ok(t)
    ensures VmShows(s, ActionSpec(s, v, kind, destination, true).state, v, kind)
    ensures VmWorkQueued(s, ActionSpec(s, v, kind, destination, true).state, v, kind, t)
  {
    t := s.nextId;
    QueuedShows(s, v, kind);
    QueuedWork(s, v, kind);
  }

  // ---- create and clone --------------------------------------------------------------------------

  /** An accepted create or clone: a row in state Unknown without a GUID, outside folders and
      tags; its task, pending event and lock. */
  lemma AcceptedCreateLeaves(s: State, h: Id, origin: Origin, destination: string, columns: Columns) returns (v: Id, t: Id)
    requires ProvisionSpec(s, h, origin, destination, columns, true).result.Ok?
    requires s.nextId !in s.locks
    ensures h in s.hosts && v == s.nextId && ProvisionSpec(s, h, origin, destination, columns, true).result == Ok(t)
    ensures var s', kind := ProvisionSpec(s, h, origin, destination, columns, true).state,
                            if origin.Scratch? then VmCreate else VmClone;
      && s'.vms == s.vms[v := Vm(None, h, s.hosts[h].cluster, None, {}, "Unknown", columns, None)]
      && s'.tasks == s.tasks[t := Task(kind, Queued, OnVm, v, h, s.now, None, None, Some(0), None)]
      && s'.events == s.events[t + 1 := Event(s.now, OfTask(kind), v, Some(h), s.hosts[h].cluster, Some(t), Pending, None)]
      && s'.locks == s.locks[v := Lock(t, kind, s.now + (TaskTimeoutSeconds(s.cfg, kind) + 60) * 1_000_000)]
      && s'.overlay == s.overlay
  {
    v, t := s.nextId, s.nextId + 1;
  }

  // ---- host actions ---------------------------------------------------------------------------------

  predicate LeavesEvent(kind: Kind) {
    match kind
    case Suspend | SuspendDrain | Resume | ResumeFallback | HostRestart | HostUpdateAgent => true
    case _ => false
  }

  lemma AuditedLeavesEvent(kind: Kind)
    ensures Audited(kind) <==> LeavesEvent(kind)
  {
  }

  /** An accepted host action: one queued task on the host; a pending event for the disruptive
      ones and the upgrade, none for a refresh. */
  lemma AcceptedHostActionLeaves(s: State, h: Id, kind: Kind) returns (t: Id)
    requires HostActionSpec(s, h, kind, true).result.Ok?
    ensures h in s.hosts && HostActionSpec(s, h, kind, true).result == Ok(t) && t == s.nextId
    ensures var s' := HostActionSpec(s, h, kind, true).state;
      && s'.tasks == s.tasks[t := Task(kind, Queued, OnHost, h, h, s.now, None, None, Some(0), None)]
      && s'.events == (if LeavesEvent(kind)
                       then s.events[t + 1 := Event(s.now, OfTask(kind), h, Some(h), s.hosts[h].cluster, Some(t), Pending, None)]
                       else s.events)
      && s'.vms == s.vms && s'.locks == s.locks
  {
    t := s.nextId;
    AuditedLeavesEvent(kind);
    HostEnqueueFields(s, h, kind, true);
    HostEvents(s, h, kind);
  }

  lemma HostEvents(s: State, h: Id, kind: Kind)
    requires h in s.hosts
    ensures EnqueueHostSpec(s, h, kind, true).state.events
      == if Audited(kind)
         then s.events[s.nextId + 1 := Event(s.now, OfTask(kind), h, Some(h), s.hosts[h].cluster, Some(s.nextId), Pending, None)]
         else s.events
  {
  }

  // ---- the end of a task ----------------------------------------------------------------------------

  function Default<T>(o: Option<T>, d: T): T {
    if o.Some? then o.value else d
  }

  /** The task after a terminal response: the agent's own finish time when it gave one, progress
      100 on success, and the agent's error, or on success its warning when there is no error. */
  lemma EndedTaskIs(s: State, h: Id, r: Response)
    requires Known(s, h, r) && !(r.status.SaysRunning? && !Terminal(s.tasks[r.task].status))
    ensures r.task in ResponseSpec(s, h, r).tasks
    ensures var was, t := s.tasks[r.task], ResponseSpec(s, h, r).tasks[r.task];
      && t == was.(status := t.status, finishedAt := t.finishedAt, progress := t.progress, error := t.error)
      && (t.status == if r.status.SaysSucceeded? then Succeeded else Failed)
      && t.finishedAt == Some(Default(r.finishedAt, s.now))
      && (t.progress == if r.status.SaysSucceeded? then Some(100) else was.progress)
      && (r.error.Some? && r.error.value != "" ==> t.error == r.error)
      && (r.status.SaysFailed? || r.status.SaysRunning? ==> t.error == r.error)
      && (r.status.SaysSucceeded? && r.error.None? && r.warning.Some? && r.warning.value != "" ==> t.error == r.warning)
  {
    EndedFields(s, h, r);
  }

  /** A progress report: the task runs, since the first one, at the progress last given. */
  lemma RunningTaskIs(s: State, h: Id, r: Response)
    requires Known(s, h, r) && r.status.SaysRunning? && !Terminal(s.tasks[r.task].status)
    ensures var was := s.tasks[r.task];
      ResponseSpec(s, h, r) == s.(tasks := s.tasks[r.task := was.(
        status := Running,
        startedAt := Some(Default(was.startedAt, s.now)),
        progress := if r.progress.Some? then r.progress else was.progress)])
  {
  }

  // ---- what ends an action --------------------------------------------------------------------

  /** Out of an action other than a delete, when it fails: the state to go back to. */
  predicate GoesBack(kind: Kind, shown: string) {
    match kind
    case VmStart => shown == "Starting"
    case VmStop | VmShutdown => shown == "Stopping"
    case VmRestart => shown == "Restarting"
    case VmPause => shown == "Pausing"
    case _ => false
  }

  predicate SaysNotSucceeded(s: State, r: Response)
    requires r.task in s.tasks
  {
    r.status.SaysFailed? || (r.status.SaysRunning? && Terminal(s.tasks[r.task].status))
  }

  lemma RevertFields(b: Block, t: Task, from: Sender)
    requires t.target.OnVm? && t.targetId in b.vms
    ensures var v, shown := t.targetId, b.vms[t.targetId].state;
      var back := StateAfterFailure(t.kind, shown);
      RevertBlock(b, t, from)
      == if GoesBack(t.kind, shown)
         then b.(vms := b.vms[v := b.vms[v].(state := back)],
                 overlay := b.overlay[v := Cached(back, from.now + from.cfg.stateTtl * 1_000_000)])
         else b
  {
  }

  /** A failed action takes its VM back, in the row and in the overlay, only out of the state the
      action itself had put it in; a state somebody else has reported since stays. */
  lemma FailureLeaves(s: State, h: Id, r: Response)
    requires Known(s, h, r) && SaysNotSucceeded(s, r) && s.tasks[r.task].target.OnVm? && !MakesVm(s.tasks[r.task].kind)
    requires s.tasks[r.task].targetId in s.vms
    ensures var t, s' := s.tasks[r.task], ResponseSpec(s, h, r);
      var v, shown := t.targetId, s.vms[t.targetId].state;
      var back := StateAfterFailure(t.kind, shown);
      && s'.vms == (if GoesBack(t.kind, shown) then s.vms[v := s.vms[v].(state := back)] else s.vms)
      && s'.overlay == (if GoesBack(t.kind, shown)
                        then s.overlay[v := Cached(back, s.now + s.cfg.stateTtl * 1_000_000)] else s.overlay)
      && s'.tombs == s.tombs
  {
    EndedFields(s, h, r);
    RevertFields(BlockOf(s), Responses.Finished(s.tasks[r.task], r, s.now), SenderOf(s, h));
  }

  /** A create or clone that failed takes its row with it. */
  lemma FailedCreateLeaves(s: State, h: Id, r: Response)
    requires Known(s, h, r) && SaysNotSucceeded(s, r)
    requires (s.tasks[r.task].kind.VmCreate? || s.tasks[r.task].kind.VmClone?) && s.tasks[r.task].targetId in s.vms
    ensures var v, s' := s.tasks[r.task].targetId, ResponseSpec(s, h, r);
      s'.vms == s.vms - {v} && s'.overlay == s.overlay - {v} && s'.tombs == s.tombs
  {
    EndedFields(s, h, r);
  }

  /** A delete that succeeded takes the row, and leaves a tombstone for a quarter of an hour. */
  lemma DeleteLeaves(s: State, h: Id, r: Response)
    requires Known(s, h, r) && r.status.SaysSucceeded? && s.tasks[r.task].kind.VmDelete? && s.tasks[r.task].targetId in s.vms
    ensures var v, s' := s.tasks[r.task].targetId, ResponseSpec(s, h, r);
      && s'.vms == s.vms - {v} && s'.overlay == s.overlay - {v}
      && s'.tombs == (match s.vms[v].guid
                      case None => s.tombs
                      case Some(g) => s.tombs[TombKey(h, g) := s.now + 900 * 1_000_000])
  {
    EndedFields(s, h, r);
  }

  /** A VM may be dropped unless its agent would report it again: it has a GUID, and its host has
      been heard of lately. With it go its lock and its overlay entry, and the trail says so. */
  lemma ForgetExactly(s: State, v: Id)
    ensures ForgetSpec(s, v).result.Ok? <==> v in s.vms && !WouldReturn(s, v)
    ensures ForgetSpec(s, v).state
      == if v in s.vms && !WouldReturn(s, v)
         then s.(nextId := s.nextId + 1, vms := s.vms - {v}, locks := s.locks - {v}, overlay := s.overlay - {v},
                 events := s.events[s.nextId := Event(s.now, VmForget, v, Some(s.vms[v].host), s.vms[v].cluster, None,
                                                      Settled(Succeeded), None)])
         else s
  {
  }

  predicate WouldReturn(s: State, v: Id)
    requires v in s.vms
  {
    var h := s.vms[v].host;
    s.vms[v].guid.Some? && h in s.hosts && s.hosts[h].lastSeen.Some?
    && s.hosts[h].lastSeen.value >= s.now - s.cfg.offlineAfter * 1_000_000
  }
}
