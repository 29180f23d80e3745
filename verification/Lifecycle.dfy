/** The life of tasks and their audit events over any run. */
module Lifecycle {
  import opened Wrappers
  import opened Model
  import opened Audit
  import opened Inventory
  import opened Responses
  import opened Vms
  import opened HostActions
  import opened Worker
  import opened Organization
  import opened TagLaws
  import opened Invariants
  import opened LedgerSteps
  import opened Engine
  import opened PlaceShapes
  import opened Soundness
  import SnapshotSteps
  import TagSteps

  function Rank(st: Status): nat {
    if st.Queued? then 0 else if st.Running? then 1 else 2
  }

  /** A task only moves forward; what it is about never changes. */
  ghost predicate TaskFollows(a: Task, b: Task) {
    && Rank(a.status) <= Rank(b.status)
    && a.kind == b.kind && a.target == b.target && a.targetId == b.targetId && a.host == b.host && a.createdAt == b.createdAt
  }

  /** An event is only ever settled, once. */
  ghost predicate EventFollows(a: Event, b: Event) {
    && b == a.(outcome := b.outcome, error := b.error)
    && (a.outcome.Settled? ==> b == a)
  }

  ghost predicate TasksEvolve(s: State, s': State) {
    forall t :: t in s'.tasks ==> t >= s.nextId || (t in s.tasks && TaskFollows(s.tasks[t], s'.tasks[t]))
  }

  ghost predicate EventsEvolve(s: State, s': State) {
    forall e :: e in s'.events ==> e >= s.nextId || (e in s.events && EventFollows(s.events[e], s'.events[e]))
  }

  /** What any later state keeps of an earlier one. */
  ghost predicate Evolves(s: State, s': State) {
    s.nextId <= s'.nextId && TasksEvolve(s, s') && EventsEvolve(s, s')
  }

  lemma EvolvesTrans(a: State, b: State, c: State)
    requires Evolves(a, b) && Evolves(b, c)
    ensures Evolves(a, c)
  {
    forall t | t in c.tasks && t < a.nextId ensures t in a.tasks && TaskFollows(a.tasks[t], c.tasks[t]) {
      assert TaskFollows(b.tasks[t], c.tasks[t]);
    }
    forall e | e in c.events && e < a.nextId ensures e in a.events && EventFollows(a.events[e], c.events[e]) {
      assert EventFollows(b.events[e], c.events[e]);
    }
  }

  // ---- how an event is settled ---------------------------------------------------------------

  /** An event settled in this step: with the status and error its task ended in, or Failed
      because the task went away with its host. */
  ghost predicate SettledRightly(s: State, s': State, e: Id)
    requires e in s.events && e in s'.events
  {
    s.events[e].outcome.Pending? && s'.events[e].outcome.Settled? && s.events[e].task.Some? ==>
      var t, st, error := s.events[e].task.value, s'.events[e].outcome.status, s'.events[e].error;
      if t in s'.tasks then s'.tasks[t].status == st && s'.tasks[t].error == error
      else st == Failed && error == Some("Host removed before the task finished")
  }

  ghost predicate SettlesRightly(s: State, s': State) {
    forall e :: e in s.events && e in s'.events ==> SettledRightly(s, s', e)
  }

  ghost predicate Progresses(s: State, s': State) {
    Evolves(s, s') && SettlesRightly(s, s')
  }

  // ---- the kinds of step ------------------------------------------------------------------------

  // Tasks and events may be added or, for events, dropped.
  ghost predicate Adds(s: State, s': State) {
    && s.nextId <= s'.nextId && s.tasks.Keys <= s'.tasks.Keys
    && (forall t :: t in s'.tasks ==> t >= s.nextId || (t in s.tasks && s'.tasks[t] == s.tasks[t]))
    && (forall e :: e in s'.events ==> e >= s.nextId || (e in s.events && s'.events[e] == s.events[e]))
  }

  lemma AddingProgresses(s: State, s': State)
    requires Adds(s, s') && (forall e :: e in s.events ==> e < s.nextId)
    ensures Progresses(s, s')
  {
  }

  lemma EndingProgresses(s: State, s': State, ids: set<Id>, st: Status, error: Option<string>)
    requires s'.nextId == s.nextId && s'.tasks.Keys == s.tasks.Keys && s'.events == Settle(s.events, ids, st, error)
    requires forall t :: t in s.tasks ==> TaskFollows(s.tasks[t], s'.tasks[t])
    requires forall t :: t in ids && t in s.tasks ==> s'.tasks[t].status == st && s'.tasks[t].error == error
    requires ids <= s.tasks.Keys
    ensures Progresses(s, s')
  {
    forall e | e in s.events ensures EventFollows(s.events[e], s'.events[e]) && SettledRightly(s, s', e) {
      assert s'.events[e] == SettleOne(s.events[e], ids, st, error);
    }
  }

  lemma EndedProgresses(s: State, h: Id, r: Response)
    requires Known(s, h, r) && !StillRunning(s.tasks[r.task], r)
    ensures Progresses(s, Ended(s, h, r))
  {
    var t := Responses.Finished(s.tasks[r.task], r, s.now);
    EndedFields(s, h, r);
    EndingProgresses(s, Ended(s, h, r), {r.task}, t.status, t.error);
  }

  lemma RunningProgresses(s: State, s': State, t: Id, task: Task)
    requires t in s.tasks && TaskFollows(s.tasks[t], task) && s' == s.(tasks := s.tasks[t := task])
    requires EventsFollowTasks(s)
    ensures Progresses(s, s')
  {
  }

  lemma ResponseProgresses(s: State, h: Id, r: Response)
    requires Sound(s)
    ensures Progresses(s, ResponseSpec(s, h, r))
  {
    assert Holds(Records, s);
    if !Known(s, h, r) {
      assert Evolves(s, s);
    } else if StillRunning(s.tasks[r.task], r) {
      RunningProgresses(s, ResponseSpec(s, h, r), r.task, Progressed(s.tasks[r.task], r, s.now));
    } else {
      EndedProgresses(s, h, r);
    }
  }

  lemma SweepProgresses(s: State)
    requires Sound(s)
    ensures Progresses(s, SweepSpec(s))
  {
    EndingProgresses(s, SweepSpec(s), StaleTasks(s), Timeout, Some(NO_ANSWER));
  }

  lemma HostRemovalProgresses(s: State, h: Id)
    requires Sound(s)
    ensures Progresses(s, RemoveHostSpec(s, h).state)
  {
    assert Holds(Ids, s);
    if h in s.hosts {
      var s', open := RemoveHostSpec(s, h).state, OpenTasksOf(s.tasks, h);
      var e0 := NewEvent(s.now, HostDeleted, h, Some(h), s.hosts[h].cluster, None);
      var recorded := s.events[s.nextId := e0];
      forall e | e in s.events ensures EventFollows(s.events[e], s'.events[e]) && SettledRightly(s, s', e) {
        assert s'.events[e] == SettleOne(recorded[e], open, Failed, Some(HOST_REMOVED));
      }
    }
  }

  lemma SnapshotAdds(s: State, h: Id, items: seq<Item>)
    ensures Adds(s, SnapshotSpec(s, h, items))
  {
    if h in s.hosts {
      var r := Inventory.Finished(s, h, items);
      WalkCounts(Start(s, h), items, Reporting(s, h));
      if r.raised {
        assert SnapshotSpec(s, h, items) == s.(overlay := r.overlay, nextId := r.nextId);
      } else {
        assert SnapshotSpec(s, h, items) == Committed(s, h, r);
        CommittedAdds(s, h, r);
      }
    }
  }

  lemma {:induction false} WalkCounts(r: Recon, items: seq<Item>, rep: Reporter)
    requires IndexSound(r)
    ensures r.nextId <= Walk(r, items, rep).nextId
  {
    if items != [] { WalkCounts(r, items[..|items| - 1], rep); }
  }

  lemma {:induction false} RemovalEventsAdd(l: Ledger, r: Recon, tasks: map<Id, Task>, host: Id, now: Time, n: Id)
    requires IndexSound(r)
    ensures var l' := RemovalEvents(l, r, tasks, host, now, n);
      l.nextId <= l'.nextId && forall e :: e in l'.events ==> e >= l.nextId || (e in l.events && l'.events[e] == l.events[e])
  {
    if n > 0 { RemovalEventsAdd(l, r, tasks, host, now, n - 1); }
  }

  lemma CommittedAdds(s: State, h: Id, r: Recon)
    requires IndexSound(r) && s.nextId <= r.nextId
    ensures Adds(s, Committed(s, h, r))
  {
    RemovalEventsAdd(Ledger(s.events, r.nextId), r, s.tasks, h, s.now, r.nextId);
  }

  lemma ForgetAdds(s: State, v: Id)
    ensures Adds(s, ForgetSpec(s, v).state)
  {
    var s' := ForgetSpec(s, v).state;
    if ForgetSpec(s, v).result.Ok? {
      assert s'.tasks == s.tasks && s'.events == s.events[s.nextId := s'.events[s.nextId]];
    }
  }

  lemma WorkAdds(s: State, a: Action)
    requires a.ActOnVm? || a.ProvisionVm? || a.Forget? || a.ActOnHost?
    ensures Adds(s, Next(s, a))
  {
    match a
    case ActOnVm(v, kind, destination, published) => ActionAdds(s, v, kind, destination, published);
    case ProvisionVm(h, origin, destination, columns, published) => ProvisionAdds(s, h, origin, destination, columns, published);
    case Forget(v) => ForgetAdds(s, v);
    case ActOnHost(h, kind, published) => HostActionAdds(s, h, kind, published);
  }

  lemma ActionAdds(s: State, v: Id, kind: Kind, destination: string, published: bool)
    ensures Adds(s, ActionSpec(s, v, kind, destination, published).state)
  {
    if v in s.vms { EnqueueAddsOnly(s, v, kind, published); }
  }

  lemma EnqueueAddsOnly(s: State, v: Id, kind: Kind, published: bool)
    requires v in s.vms
    ensures Adds(s, EnqueueSpec(s, v, kind, published).state)
  {
  }

  lemma ProvisionAdds(s: State, h: Id, origin: Origin, destination: string, columns: Columns, published: bool)
    ensures Adds(s, ProvisionSpec(s, h, origin, destination, columns, published).state)
  {
    if h in s.hosts { InsertAddsOnly(s, h, ProvisionKind(origin), columns, published); }
  }

  lemma InsertAddsOnly(s: State, h: Id, kind: Kind, columns: Columns, published: bool)
    requires h in s.hosts
    ensures Adds(s, InsertSpec(s, h, kind, columns, published).state)
  {
  }

  lemma HostActionAdds(s: State, h: Id, kind: Kind, published: bool)
    ensures Adds(s, HostActionSpec(s, h, kind, published).state)
  {
    if h in s.hosts { HostEnqueueAddsOnly(s, h, kind, published); }
  }

  lemma HostEnqueueAddsOnly(s: State, h: Id, kind: Kind, published: bool)
    requires h in s.hosts
    ensures Adds(s, EnqueueHostSpec(s, h, kind, published).state)
  {
  }

  lemma PlacesAdd(s: State, a: Action)
    requires OfPlaces(a) && !a.RemoveHost?
    ensures Adds(s, Next(s, a))
  {
    PlacesShape(s, a);
  }

  lemma EventsBelow(s: State)
    requires Sound(s)
    ensures forall e :: e in s.events ==> e < s.nextId
  {
    assert Holds(Ids, s);
  }

  lemma TasksAreOld(s: State)
    requires Sound(s)
    ensures forall t :: t in s.tasks ==> t < s.nextId
  {
    assert Holds(Ids, s);
  }

  lemma TaggingAdds(s: State, r: TagRequest)
    requires Sound(s)
    ensures Adds(s, TagSpec(s, r).state)
  {
    if TagSpec(s, r).result.Ok? { TagSteps.TaggingChangesTags(s, r); } else { TagSteps.RefusedTagging(s, r); }
  }

  // Steps that end no task.
  predicate EndsNothing(a: Action) {
    !a.Respond? && !a.Sweep? && !a.RemoveHost?
  }

  lemma NextAdds(s: State, a: Action)
    requires Sound(s) && EndsNothing(a)
    ensures Adds(s, Next(s, a))
  {
    if OfPlaces(a) {
      PlacesAdd(s, a);
    } else {
      match a
      case Snapshot(h, items) => SnapshotAdds(s, h, items);
      case Tagging(request) => TaggingAdds(s, request);
      case Tick(_) =>
      case ForceRelease(_) =>
      case Prune(_) =>
      case _ => WorkAdds(s, a);
    }
  }

  lemma EndingStepProgresses(s: State, a: Action)
    requires Sound(s) && !EndsNothing(a)
    ensures Progresses(s, Next(s, a))
  {
    match a
    case Respond(h, r) => ResponseProgresses(s, h, r);
    case Sweep => SweepProgresses(s);
    case RemoveHost(h) => HostRemovalProgresses(s, h);
  }

  /** Every step moves tasks forward and settles events rightly. */
  lemma NextProgresses(s: State, a: Action)
    requires Sound(s)
    ensures Progresses(s, Next(s, a))
  {
    if EndsNothing(a) {
      EventsBelow(s);
      NextAdds(s, a);
      AddingProgresses(s, Next(s, a));
    } else {
      EndingStepProgresses(s, a);
    }
  }

  // ---- over whole runs ------------------------------------------------------------------------------

  /** Between any two moments of any run: tasks have only moved forward, and an event that was
      settled, if it has not been pruned, still says the same. */
  lemma {:induction false} RunEvolves(cfg: Settings, now: Time, actions: seq<Action>, i: nat)
    requires i <= |actions|
    ensures Evolves(Run(Empty(cfg, now), actions[..i]), Run(Empty(cfg, now), actions))
    decreases |actions| - i
  {
    var start := Empty(cfg, now);
    if i == |actions| {
      assert actions[..i] == actions;
      RunSound(cfg, now, actions);
      assert Evolves(Run(start, actions), Run(start, actions));
    } else {
      RunSound(cfg, now, actions[..i]);
      NextProgresses(Run(start, actions[..i]), actions[i]);
      assert actions[..i + 1][..i] == actions[..i];
      RunEvolves(cfg, now, actions, i + 1);
      EvolvesTrans(Run(start, actions[..i]), Run(start, actions[..i + 1]), Run(start, actions));
    }
  }

  /** The step from `s` to `s'` settles the event with its task's first terminal status, or with
      Failed when the task's host is removed. */
  ghost predicate SettledFirst(s: State, a: Action, s': State, e: Id)
    requires e in s.events && e in s'.events
  {
    var t := s.events[e].task;
    && t.Some? && Open(s, t.value) && !Open(s', t.value)
    && (if t.value in s'.tasks then s'.events[e].outcome == Settled(s'.tasks[t.value].status)
        else a.RemoveHost? && s'.events[e].outcome == Settled(Failed))
  }

  lemma StepSettles(s: State, a: Action, s': State, e: Id)
    requires Sound(s) && Sound(s') && Progresses(s, s') && (!a.RemoveHost? ==> s.tasks.Keys <= s'.tasks.Keys)
    requires e in s.events && e in s'.events && s.events[e].outcome.Pending? && s'.events[e].outcome.Settled?
    ensures SettledFirst(s, a, s', e)
  {
    EventHasOpenTask(s, e);
    EventHasOpenTask(s', e);
    assert SettledRightly(s, s', e);
    EventIsOld(s, e);
    assert EventFollows(s.events[e], s'.events[e]);
  }

  lemma EventIsOld(s: State, e: Id)
    requires Sound(s) && e in s.events
    ensures e < s.nextId
  {
    assert Holds(Ids, s);
  }

  /** When an event of a run is settled, its task was open until that very step, so the outcome
      is the first terminal status the task reached, or Failed when the host went. */
  lemma OutcomeIsFirstTerminal(cfg: Settings, now: Time, actions: seq<Action>, a: Action, s: State, s': State, e: Id)
    requires s == Run(Empty(cfg, now), actions) && s' == Next(s, a)
    requires e in s.events && e in s'.events && s.events[e].outcome.Pending? && s'.events[e].outcome.Settled?
    ensures SettledFirst(s, a, s', e)
  {
    RunSound(cfg, now, actions);
    NextSound(s, a);
    NextProgresses(s, a);
    if !a.RemoveHost? { TasksStay(s, a); }
    StepSettles(s, a, s', e);
  }

  lemma EventHasOpenTask(s: State, e: Id)
    requires Sound(s) && e in s.events
    ensures s.events[e].outcome.Pending? <==> s.events[e].task.Some? && Open(s, s.events[e].task.value)
  {
    assert Holds(Records, s);
  }

  /** Only removing a host removes tasks. */
  lemma TasksStay(s: State, a: Action)
    requires Sound(s) && !a.RemoveHost?
    ensures s.tasks.Keys <= Next(s, a).tasks.Keys
  {
    match a
    case Respond(h, r) => if Known(s, h, r) { EndedFields(s, h, r); }
    case Sweep =>
    case _ => NextAdds(s, a);
  }

  // ---- a response and its VM block ----------------------------------------------------------------------

  /** Lifecycle, settlement and lock release never depend on what the response says about VMs,
      not even when taking that in fails. */
  lemma ResponseIgnoresVmBlock(s: State, h: Id, r: Response, vmId: string, vmState: string, items: seq<Item>)
    ensures var a, b := ResponseSpec(s, h, r), ResponseSpec(s, h, r.(vmId := vmId, vmState := vmState, items := items));
      a.tasks == b.tasks && a.events == b.events && a.locks == b.locks
  {
    var r' := r.(vmId := vmId, vmState := vmState, items := items);
    if Known(s, h, r) && !StillRunning(s.tasks[r.task], r) {
      assert Responses.Finished(s.tasks[r.task], r, s.now) == Responses.Finished(s.tasks[r.task], r', s.now);
      SameEnding(s, h, r, r');
    }
  }

  lemma SameEnding(s: State, h: Id, r: Response, r': Response)
    requires Known(s, h, r) && r'.task == r.task
    requires Responses.Finished(s.tasks[r.task], r, s.now) == Responses.Finished(s.tasks[r.task], r', s.now)
    ensures var a, b := Ended(s, h, r), Ended(s, h, r'); a.tasks == b.tasks && a.events == b.events && a.locks == b.locks
  {
    EndedFields(s, h, r);
    EndedFields(s, h, r');
  }

  /** A terminal status is not the last word: a `running` that arrives late turns it to failed.
      Exactly when a response leaves the status of an ended task alone: */
  lemma TerminalValueExactly(s: State, h: Id, r: Response) returns (after: Task)
    requires Known(s, h, r) && Terminal(s.tasks[r.task].status)
    ensures ResponseSpec(s, h, r).tasks == s.tasks[r.task := after]
    ensures r.status.SaysRunning? ==> after.status == Failed
    ensures after.status == s.tasks[r.task].status
      <==> (s.tasks[r.task].status.Succeeded? && r.status.SaysSucceeded?)
           || (s.tasks[r.task].status.Failed? && !r.status.SaysSucceeded?)
  {
    EndedFields(s, h, r);
    after := Responses.Finished(s.tasks[r.task], r, s.now);
  }

  lemma FailedPlaceholderGoes(b: Block, r: Response, t: Task, from: Sender)
    requires MakesVm(t.kind) && !t.status.Succeeded? && !b.raised
    ensures !VmBlock(b, r, t, from).raised && VmBlock(b, r, t, from).vms == b.vms - {t.targetId}
  {
  }

  /** For a VM that was created, that late `running` removes its row. */
  lemma LateRunningDropsCreatedVm(s: State, h: Id, r: Response)
    requires Known(s, h, r) && Terminal(s.tasks[r.task].status) && r.status.SaysRunning?
    requires MakesVm(s.tasks[r.task].kind)
    ensures ResponseSpec(s, h, r).vms == s.vms - {s.tasks[r.task].targetId}
  {
    EndedFields(s, h, r);
    FailedPlaceholderGoes(BlockOf(s), r, Responses.Finished(s.tasks[r.task], r, s.now), SenderOf(s, h));
  }
}
