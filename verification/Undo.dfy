/** What an action that does not go through leaves behind. */
module Undo {
  import opened Wrappers
  import opened Model
  import opened CacheOps
  import opened Audit
  import opened Responses
  import opened Vms
  import opened Invariants
  import opened ActionLaws

  lemma ReversibleIsTransitional(kind: Kind)
    ensures Reverted(kind).Some? ==> Transitional(kind).Some?
    ensures Transitional(kind).Some? && Reverted(kind).None? <==> kind.VmDelete?
    ensures Reverted(kind).Some? || kind.VmDelete? ==> !MakesVm(kind)
  {
  }

  lemma ActionsMakeNoVm(kind: Kind)
    requires IsVmAction(kind)
    ensures !MakesVm(kind)
  {
  }

  // What the queued state holds of VM `v` and its new task.
  lemma QueuedFields(s: State, v: Id, kind: Kind)
    requires v in s.vms && !ReadOnly(kind)
    ensures var q, t := EnqueueSpec(s, v, kind, true).state, s.nextId;
      && q.vms == s.vms[v := Optimistic(s.vms[v], kind)]
      && q.tasks == s.tasks[t := NewTask(kind, OnVm, v, s.vms[v].host, s.now)]
      && q.events == s.events[t + 1 := NewEvent(s.now, OfTask(kind), v, Some(s.vms[v].host), s.vms[v].cluster, Some(t))]
      && q.locks == Acquired(s.locks, v, t, kind, s.cfg, s.now)
      && q.now == s.now
  {
  }

  lemma RevertedRow(b: Block, r: Response, t: Task, from: Sender, was: Vm)
    requires !MakesVm(t.kind) && t.status.Failed? && t.target.OnVm? && t.targetId in b.vms && !b.raised
    requires b.vms[t.targetId] == Optimistic(was, t.kind)
    ensures var b' := VmBlock(b, r, t, from);
      !b'.raised && b'.vms == b.vms[t.targetId := was.(state := StateAfterFailure(t.kind, was.state))]
  {
    ReversibleIsTransitional(t.kind);
    TransitionalShows(t.kind, was.state);
    RevertedShows(t.kind, was.state);
    assert VmBlock(b, r, t, from) == RevertBlock(b, t, from);
  }

  lemma ReleasedAfterAcquired(locks: map<Id, Lock>, v: Id, t: Id, kind: Kind, cfg: Settings, now: Time)
    ensures Released(Acquired(locks, v, t, kind, cfg, now), v, t, now) == locks - {v}
  {
  }

  lemma LastEventSettles(events: map<Id, Event>, e: Id, event: Event, t: Id, error: Option<string>)
    requires event.outcome.Pending? && event.task == Some(t)
    ensures var after := Settle(events[e := event], {t}, Failed, error); e in after && after[e].outcome == Settled(Failed)
  {
  }

  /** Queue an action and let the agent report its failure. The lock is free again, the event is
      settled, and every row is as before but for the state of this VM. */
  lemma FailedActionIsUndone(s: State, v: Id, kind: Kind, r: Response)
    requires v in s.vms && IsVmAction(kind) && !ReadOnly(kind) && r.task == s.nextId && r.status.SaysFailed?
    ensures var done := ResponseSpec(EnqueueSpec(s, v, kind, true).state, s.vms[v].host, r);
      && done.vms == s.vms[v := s.vms[v].(state := StateAfterFailure(kind, s.vms[v].state))]
      && done.locks == s.locks - {v}
      && s.nextId + 1 in done.events && done.events[s.nextId + 1].outcome == Settled(Failed)
  {
    var q, h := EnqueueSpec(s, v, kind, true).state, s.vms[v].host;
    QueuedFields(s, v, kind);
    ActionsMakeNoVm(kind);
    FailureOf(s, q, v, kind, h, r);
  }

  // What one queued task's failure comes to, field by field.
  lemma FailureOf(s: State, q: State, v: Id, kind: Kind, h: Id, r: Response)
    requires v in s.vms && !MakesVm(kind) && r.task == s.nextId && r.status.SaysFailed? && h == s.vms[v].host
    requires q.now == s.now && q.vms == s.vms[v := Optimistic(s.vms[v], kind)]
    requires q.tasks == s.tasks[s.nextId := NewTask(kind, OnVm, v, h, s.now)]
    requires q.locks == Acquired(s.locks, v, s.nextId, kind, s.cfg, s.now)
    requires q.events == s.events[s.nextId + 1 := NewEvent(s.now, OfTask(kind), v, Some(h), s.vms[v].cluster, Some(s.nextId))]
    ensures ResponseSpec(q, h, r).vms == s.vms[v := s.vms[v].(state := StateAfterFailure(kind, s.vms[v].state))]
    ensures ResponseSpec(q, h, r).locks == s.locks - {v}
    ensures s.nextId + 1 in ResponseSpec(q, h, r).events && ResponseSpec(q, h, r).events[s.nextId + 1].outcome == Settled(Failed)
  {
    FailureEnds(q, h, r);
    FailedRow(q, h, r, s.vms[v]);
    ReleasedAfterAcquired(s.locks, v, s.nextId, kind, s.cfg, s.now);
    LastEventSettles(s.events, s.nextId + 1, q.events[s.nextId + 1], s.nextId, Finished(q.tasks[r.task], r, q.now).error);
  }

  lemma FailedRow(q: State, h: Id, r: Response, was: Vm)
    requires Known(q, h, r) && r.status.SaysFailed? && q.tasks[r.task].target.OnVm?
    requires var t := q.tasks[r.task]; !MakesVm(t.kind) && t.targetId in q.vms && q.vms[t.targetId] == Optimistic(was, t.kind)
    ensures var t := q.tasks[r.task];
      !Worked(q, h, r).raised
      && Worked(q, h, r).vms == q.vms[t.targetId := was.(state := StateAfterFailure(t.kind, was.state))]
  {
    RevertedRow(BlockOf(q), r, Finished(q.tasks[r.task], r, q.now), SenderOf(q, h), was);
  }

  lemma FailureEnds(q: State, h: Id, r: Response)
    requires Known(q, h, r) && r.status.SaysFailed? && q.tasks[r.task].target.OnVm?
    ensures var t, b, s' := Finished(q.tasks[r.task], r, q.now), Worked(q, h, r), ResponseSpec(q, h, r);
      && s'.events == Settle(q.events, {r.task}, Failed, t.error)
      && s'.locks == Released(q.locks, t.targetId, r.task, q.now)
      && s'.vms == if b.raised then q.vms else b.vms
  {
    EndedFields(q, h, r);
  }

  /** The state in which an action finds a VM and leaves it when it fails. */
  predicate Unharmed(kind: Kind, state: string) {
    match kind
    case VmStart => state == "Off"
    case VmStop | VmShutdown | VmRestart | VmPause => state == "Running"
    case VmDelete => state == "Deleting"
    case _ => true
  }

  lemma UnharmedExactly(kind: Kind, state: string)
    ensures StateAfterFailure(kind, state) == state <==> Unharmed(kind, state)
  {
  }

  lemma OneStateChanged(vms: map<Id, Vm>, v: Id, state: string)
    requires v in vms
    ensures vms[v := vms[v].(state := state)] == vms <==> state == vms[v].state
  {
    var after := vms[v := vms[v].(state := state)];
    assert after == vms ==> after[v] == vms[v];
  }

  /** The failure is undone completely exactly when the action has no state of its own, the VM
      was in the state the action starts from, or a delete found it "Deleting" already. */
  lemma UndoneCompletelyExactly(s: State, v: Id, kind: Kind, r: Response)
    requires v in s.vms && IsVmAction(kind) && !ReadOnly(kind) && r.task == s.nextId && r.status.SaysFailed?
    ensures ResponseSpec(EnqueueSpec(s, v, kind, true).state, s.vms[v].host, r).vms == s.vms
      <==> Unharmed(kind, s.vms[v].state)
  {
    FailedActionIsUndone(s, v, kind, r);
    OneStateChanged(s.vms, v, StateAfterFailure(kind, s.vms[v].state));
    UnharmedExactly(kind, s.vms[v].state);
  }

  /** A request the broker does not take leaves no row, task or event behind; an action frees
      its lock, a create keeps the lock of the VM that never was. */
  lemma RefusedPublishConserves(s: State, v: Id, kind: Kind, h: Id, columns: Columns)
    requires v in s.vms && h in s.hosts && !ReadOnly(kind) && !LockLive(s.locks, s.nextId, s.now)
    ensures var a, c := EnqueueSpec(s, v, kind, false).state, InsertSpec(s, h, kind, columns, false).state;
      && a.vms == s.vms && a.tasks == s.tasks && a.events == s.events && a.locks == s.locks - {v}
      && c.vms == s.vms && c.tasks == s.tasks && c.events == s.events && c.overlay == s.overlay
      && HeldBy(c.locks, s.nextId, s.nextId + 1, s.now)
  {
    ReleasedAfterAcquired(s.locks, v, s.nextId, kind, s.cfg, s.now);
  }
}
