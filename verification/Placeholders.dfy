/** Rows without a GUID, the tasks that are to give them one, and the sweeper. */
module Placeholders {
  import opened Wrappers
  import opened Model
  import opened TaskTimeouts
  import opened Inventory
  import opened InventoryLaws
  import opened Responses
  import opened Vms
  import opened Worker
  import opened Organization
  import opened TagLaws
  import opened Invariants
  import opened RowSteps
  import opened Engine
  import opened PlaceShapes
  import opened Soundness
  import opened Lifecycle
  import opened Rollback
  import CacheOps
  import HostActions
  import Agreement
  import Locks
  import ResponseSteps
  import SnapshotSteps
  import TagSteps

  // ---- every placeholder has a task ------------------------------------------------------

  /** Task `t` is to make VM `v`, which lives on the task's host. */
  ghost predicate Makes(s: State, t: Id, v: Id)
    requires v in s.vms
  {
    && t in s.tasks && MakesVm(s.tasks[t].kind) && s.tasks[t].target.OnVm? && s.tasks[t].targetId == v
    && s.tasks[t].host == s.vms[v].host
  }

  ghost predicate HaveMakers(s: State) {
    forall v :: v in s.vms && s.vms[v].guid.None? ==> exists t :: Makes(s, t, v)
  }

  // A row without a GUID was there before, without a GUID, on the same host.
  ghost predicate NoNewBlanks(before: map<Id, Vm>, after: map<Id, Vm>) {
    forall v :: v in after && after[v].guid.None? ==>
      v in before && before[v].guid.None? && after[v].host == before[v].host
  }

  ghost predicate MakersStay(s: State, s': State) {
    forall v, t :: v in s'.vms && s'.vms[v].guid.None? && v in s.vms && s.vms[v].guid.None? && Makes(s, t, v) ==> Makes(s', t, v)
  }

  lemma MakersCarryOver(s: State, s': State)
    requires HaveMakers(s) && NoNewBlanks(s.vms, s'.vms) && MakersStay(s, s')
    ensures HaveMakers(s')
  {
    forall v | v in s'.vms && s'.vms[v].guid.None? ensures exists t :: Makes(s', t, v) {
      var t :| Makes(s, t, v);
      assert Makes(s', t, v);
    }
  }

  // Tasks follow and none is removed.
  lemma FollowedMakersStay(s: State, s': State)
    requires TasksEvolve(s, s') && s.tasks.Keys <= s'.tasks.Keys && (forall t :: t in s.tasks ==> t < s.nextId)
    requires NoNewBlanks(s.vms, s'.vms)
    ensures MakersStay(s, s')
  {
    forall v, t | v in s'.vms && s'.vms[v].guid.None? && v in s.vms && s.vms[v].guid.None? && Makes(s, t, v)
      ensures Makes(s', t, v)
    {
      assert TaskFollows(s.tasks[t], s'.tasks[t]);
    }
  }

  lemma KeptBlanks(before: map<Id, Vm>, after: map<Id, Vm>)
    requires Kept(before, after)
    ensures NoNewBlanks(before, after)
  {
    forall v | v in after && after[v].guid.None? ensures before[v].guid.None? && after[v].host == before[v].host {
      assert SamePlace(before[v], after[v]);
    }
  }

  lemma StampedBlanks(vms: map<Id, Vm>, r: Response, t: Task, after: map<Id, Vm>)
    requires Stamps(vms, r, t, after)
    ensures NoNewBlanks(vms, after)
  {
    if Kept(vms, after) { KeptBlanks(vms, after); } else { KeptBlanks(Stamping(vms, r, t), after); }
  }

  lemma EndedBlanks(s: State, h: Id, r: Response)
    requires Known(s, h, r) && Synced(s.vms, SenderOf(s, h))
    ensures NoNewBlanks(s.vms, Ended(s, h, r).vms)
  {
    var t := Responses.Finished(s.tasks[r.task], r, s.now);
    EndedFields(s, h, r);
    BlockRows(BlockOf(s), r, t, SenderOf(s, h));
    if !Worked(s, h, r).raised { StampedBlanks(s.vms, r, t, Worked(s, h, r).vms); }
  }

  lemma ResponseBlanks(s: State, h: Id, r: Response)
    requires Sound(s)
    ensures NoNewBlanks(s.vms, ResponseSpec(s, h, r).vms)
  {
    if Known(s, h, r) && !StillRunning(s.tasks[r.task], r) {
      ResponseSteps.SenderExists(s, h, r);
      ResponseSteps.SenderIsSynced(s, h);
      EndedBlanks(s, h, r);
    }
  }

  lemma SnapshotBlanks(s: State, h: Id, items: seq<Item>)
    requires Sound(s)
    ensures NoNewBlanks(s.vms, SnapshotSpec(s, h, items).vms)
  {
    if h in s.hosts {
      SnapshotSteps.SoundIsReadable(s, h);
      if WellFormed(items) {
        RowsReconciled(s, h, items);
        var vms := SnapshotSpec(s, h, items).vms;
        forall v | v in vms
          ensures vms[v].guid.None? ==> v in s.vms && s.vms[v].guid.None? && vms[v].host == s.vms[v].host
        {
          if v in s.vms { assert RowFate(s, h, items, vms, v); } else { assert NewRow(s, h, items, vms, v); }
        }
      } else {
        MalformedChangesNoRow(s, h, items);
      }
    }
  }

  lemma PlacesBlanks(s: State, a: Action)
    requires OfPlaces(a)
    ensures NoNewBlanks(s.vms, Next(s, a).vms)
  {
    PlacesShape(s, a);
    forall v | v in Next(s, a).vms ensures v in s.vms && SameVm(s.vms[v], Next(s, a).vms[v]) {}
  }

  lemma TaggingBlanks(s: State, r: TagRequest)
    requires Sound(s)
    ensures NoNewBlanks(s.vms, TagSpec(s, r).state.vms)
  {
    if TagSpec(s, r).result.Ok? { TagSteps.TaggingChangesTags(s, r); } else { TagSteps.RefusedTagging(s, r); }
  }

  lemma ActionBlanks(s: State, v: Id, kind: Kind, destination: string, published: bool)
    ensures NoNewBlanks(s.vms, ActionSpec(s, v, kind, destination, published).state.vms)
  {
    if v in s.vms { Agreement.EnqueueStates(s, v, kind, published); }
  }

  lemma ForgetBlanks(s: State, v: Id)
    ensures NoNewBlanks(s.vms, ForgetSpec(s, v).state.vms)
  {
    assert ForgetSpec(s, v).state.vms == s.vms - {v} || ForgetSpec(s, v).state == s;
  }

  lemma HostActionBlanks(s: State, h: Id, kind: Kind, published: bool)
    ensures NoNewBlanks(s.vms, HostActions.HostActionSpec(s, h, kind, published).state.vms)
  {
    if h in s.hosts { HostActions.HostEnqueueFields(s, h, kind, published); }
  }

  lemma StepBlanks(s: State, a: Action)
    requires Sound(s) && !a.ProvisionVm?
    ensures NoNewBlanks(s.vms, Next(s, a).vms)
  {
    match a
    case ActOnVm(v, kind, destination, published) => ActionBlanks(s, v, kind, destination, published);
    case Respond(h, r) => ResponseBlanks(s, h, r);
    case Snapshot(h, items) => SnapshotBlanks(s, h, items);
    case Sweep =>
    case Forget(v) => ForgetBlanks(s, v);
    case ActOnHost(h, kind, published) => HostActionBlanks(s, h, kind, published);
    case Tagging(r) => TaggingBlanks(s, r);
    case Tick(_) =>
    case ForceRelease(_) =>
    case Prune(_) =>
    case _ => PlacesBlanks(s, a);
  }

  /** A host takes its tasks and its VMs with it, so no placeholder is left without its task. */
  lemma RemovalKeepsMakers(s: State, h: Id)
    ensures MakersStay(s, RemoveHostSpec(s, h).state)
  {
  }

  lemma InsertKeepsMakers(s: State, h: Id, kind: Kind, columns: Columns, published: bool)
    requires HaveMakers(s) && h in s.hosts && MakesVm(kind) && s.nextId !in s.vms && s.nextId + 1 !in s.tasks
    ensures HaveMakers(InsertSpec(s, h, kind, columns, published).state)
  {
    var s' := InsertSpec(s, h, kind, columns, published).state;
    forall v | v in s'.vms && s'.vms[v].guid.None? ensures exists t :: Makes(s', t, v) {
      if v in s.vms {
        var t :| Makes(s, t, v);
        assert Makes(s', t, v);
      } else {
        assert Makes(s', s.nextId + 1, v);
      }
    }
  }

  lemma ProvisionKeepsMakers(s: State, h: Id, origin: Origin, destination: string, columns: Columns, published: bool)
    requires Sound(s) && HaveMakers(s)
    ensures HaveMakers(ProvisionSpec(s, h, origin, destination, columns, published).state)
  {
    if h in s.hosts {
      Locks.NewIdsAreFree(s);
      InsertKeepsMakers(s, h, ProvisionKind(origin), columns, published);
    }
  }

  lemma NextKeepsMakers(s: State, a: Action)
    requires Sound(s) && HaveMakers(s)
    ensures HaveMakers(Next(s, a))
  {
    if a.ProvisionVm? {
      ProvisionKeepsMakers(s, a.host, a.origin, a.destination, a.columns, a.published);
    } else {
      BlankStep(s, a);
      MakersCarryOver(s, Next(s, a));
    }
  }

  lemma {:induction false} RunHasMakers(cfg: Settings, now: Time, actions: seq<Action>)
    ensures HaveMakers(Run(Empty(cfg, now), actions))
  {
    if actions != [] {
      RunHasMakers(cfg, now, actions[..|actions| - 1]);
      RunSound(cfg, now, actions[..|actions| - 1]);
      NextKeepsMakers(Run(Empty(cfg, now), actions[..|actions| - 1]), actions[|actions| - 1]);
    }
  }

  // ---- the sweeper -----------------------------------------------------------------------------

  /** A sweep times out exactly the open tasks past the deadline of their own kind; nothing is
      lost to the pre-filter, and no open task past its deadline is left. */
  lemma SweepIsExact(s: State, t: Id)
    requires t in s.tasks
    ensures var s' := SweepSpec(s);
      && t in s'.tasks
      && (s'.tasks[t].status.Timeout? <==> s.tasks[t].status.Timeout? || (Open(s, t) && PastDeadline(s.cfg, s.tasks[t], s.now)))
      && (!(Open(s, t) && PastDeadline(s.cfg, s.tasks[t], s.now)) ==> s'.tasks[t] == s.tasks[t])
      && !(Open(s', t) && PastDeadline(s.cfg, s'.tasks[t], s.now))
  {
  }

  /** A task a sweep ends is left as one that was never answered. */
  lemma SweptTaskIs(s: State, t: Id)
    requires t in s.tasks && SweepSpec(s).tasks[t] != s.tasks[t]
    ensures SweepSpec(s).tasks[t]
      == s.tasks[t].(status := Timeout, finishedAt := Some(s.now), error := Some("Agent did not respond in time"))
  {
  }

  /** A create or clone of row `v` is over without success. */
  ghost predicate MakingFailed(s: State, v: Id) {
    exists t :: t in s.tasks && (s.tasks[t].kind.VmCreate? || s.tasks[t].kind.VmClone?) && s.tasks[t].targetId == v
             && (s.tasks[t].status.Failed? || s.tasks[t].status.Timeout?)
  }

  /** A sweep drops exactly the rows without a GUID whose create or clone failed or timed out,
      be it now, and touches no other row. */
  lemma SweepDropsExactly(s: State, v: Id)
    requires v in s.vms
    ensures v !in SweepSpec(s).vms <==> s.vms[v].guid.None? && MakingFailed(SweepSpec(s), v)
    ensures v in SweepSpec(s).vms ==> SweepSpec(s).vms[v] == s.vms[v]
  {
    var s' := SweepSpec(s);
    assert s'.vms == s.vms - Orphans(s.vms, s'.tasks);
  }

  /** What an inhabited placeholder may be waiting for after a sweep: a task that is open and in
      time, or one that succeeded without giving it a GUID. */
  ghost predicate Waiting(s: State, v: Id)
    requires v in s.vms
  {
    exists t :: Makes(s, t, v)
      && (s.tasks[t].status.Succeeded? || (Open(s, t) && !PastDeadline(s.cfg, s.tasks[t], s.now)))
  }

  /** In any run, after a sweep every VM without a GUID is still waited for. */
  lemma NoOrphanAfterSweep(cfg: Settings, now: Time, actions: seq<Action>, s: State, v: Id)
    requires s == Run(Empty(cfg, now), actions) && v in SweepSpec(s).vms && SweepSpec(s).vms[v].guid.None?
    ensures Waiting(SweepSpec(s), v)
  {
    RunHasMakers(cfg, now, actions);
    RunSound(cfg, now, actions);
    SweepKeepsWaiting(s, v);
  }

  lemma SweepKeepsWaiting(s: State, v: Id)
    requires HaveMakers(s) && v in SweepSpec(s).vms && SweepSpec(s).vms[v].guid.None?
    ensures Waiting(SweepSpec(s), v)
  {
    var s' := SweepSpec(s);
    var t :| Makes(s, t, v);
    assert Makes(s', t, v);
    assert v !in Orphans(s.vms, s'.tasks);
    SweepIsExact(s, t);
  }

  // ---- when successful creates say which VM they made -----------------------------------------------

  /** A create or clone that succeeded names its VM's GUID, which is free, and its VM objects are
      well-formed. */
  predicate GivesGuid(s: State, a: Action) {
    a.Respond? && Known(s, a.host, a.response) && a.response.status.SaysSucceeded?
      && MakesVm(s.tasks[a.response.task].kind)
    ==> a.response.vmId != "" && !GuidTaken(s, a.response) && WellFormed(a.response.items)
  }

  /** Exactly when a successful create or clone gives its placeholder a GUID. */
  lemma CreateStampsExactly(s: State, h: Id, r: Response, v: Id)
    requires Sound(s) && Known(s, h, r) && r.status.SaysSucceeded? && MakesVm(s.tasks[r.task].kind)
    requires v == s.tasks[r.task].targetId && v in s.vms && s.vms[v].guid.None?
    ensures var after := ResponseSpec(s, h, r).vms;
      v in after && (after[v].guid.Some?
        <==> r.vmId != "" && !Clashes(s.vms[v := Stamped(s.vms[v], r)], v) && WellFormed(r.items))
  {
    RollsBackExactly(s, h, r);
    EndedFields(s, h, r);
    ResponseSteps.SenderExists(s, h, r);
    ResponseSteps.SenderIsSynced(s, h);
    StampedRowStays(BlockOf(s), r, Responses.Finished(s.tasks[r.task], r, s.now), SenderOf(s, h));
  }

  lemma StampedRowStays(b: Block, r: Response, t: Task, from: Sender)
    requires Synced(b.vms, from) && MakesVm(t.kind) && t.status.Succeeded? && t.targetId in b.vms
    ensures var b' := VmBlock(b, r, t, from);
      !b'.raised ==> t.targetId in b'.vms && b'.vms[t.targetId].guid == Stamped(b.vms[t.targetId], r).guid
  {
    var row := Stamped(b.vms[t.targetId], r);
    var b1 := b.(vms := b.vms[t.targetId := row],
                 overlay := CacheOps.Overlaid(b.overlay, t.targetId, row.state, from.cfg, from.now));
    assert Synced(b1.vms, from) by {
      forall v | v in b1.vms && b1.vms[v].host == from.host ensures b1.vms[v].cluster == from.cluster {
        assert v in b.vms;
      }
    }
    StatusRows(b1, r.items, from);
    StatusKeepsRows(b1, r.items, from);
    assert !Clashes(b1.vms, t.targetId) ==> VmBlock(b, r, t, from) == StatusItems(b1, r.items, from).b;
  }

  lemma {:induction false} StatusKeepsRows(b: Block, items: seq<Item>, from: Sender)
    ensures StatusItems(b, items, from).b.vms.Keys == b.vms.Keys
  {
    if items != [] { StatusKeepsRows(b, items[..|items| - 1], from); }
  }

  /** Exactly when a response to a create or clone that had ended keeps the VM's row: when it
      says once more that it succeeded. */
  lemma EndedCreateKeepsRowExactly(s: State, h: Id, r: Response, v: Id)
    requires Known(s, h, r) && Terminal(s.tasks[r.task].status) && MakesVm(s.tasks[r.task].kind)
    requires v == s.tasks[r.task].targetId && v in s.vms
    ensures v in ResponseSpec(s, h, r).vms <==> r.status.SaysSucceeded?
  {
    EndedFields(s, h, r);
    var t := Responses.Finished(s.tasks[r.task], r, s.now);
    if r.status.SaysSucceeded? {
      SucceededKeepsRows(BlockOf(s), r, t, SenderOf(s, h));
    } else {
      FailedPlaceholderGoes(BlockOf(s), r, t, SenderOf(s, h));
    }
  }

  lemma SucceededKeepsRows(b: Block, r: Response, t: Task, from: Sender)
    requires MakesVm(t.kind) && t.status.Succeeded?
    ensures VmBlock(b, r, t, from).vms.Keys == b.vms.Keys
  {
    if t.targetId in b.vms {
      var row := Stamped(b.vms[t.targetId], r);
      StatusKeepsRows(b.(vms := b.vms[t.targetId := row],
                         overlay := CacheOps.Overlaid(b.overlay, t.targetId, row.state, from.cfg, from.now)), r.items, from);
    }
  }

  ghost predicate OpenMakers(s: State) {
    forall v :: v in s.vms && s.vms[v].guid.None? ==> exists t :: Makes(s, t, v) && Open(s, t)
  }

  // Makers that were open still are, for the rows that are still blank.
  ghost predicate OpenMakersStay(s: State, s': State) {
    forall v, t :: v in s'.vms && s'.vms[v].guid.None? && v in s.vms && Makes(s, t, v) && Open(s, t) ==> Open(s', t)
  }

  lemma OpenCarryOver(s: State, s': State)
    requires OpenMakers(s) && NoNewBlanks(s.vms, s'.vms) && MakersStay(s, s') && OpenMakersStay(s, s')
    ensures OpenMakers(s')
  {
    forall v | v in s'.vms && s'.vms[v].guid.None? ensures exists t :: Makes(s', t, v) && Open(s', t) {
      var t :| Makes(s, t, v) && Open(s, t);
      assert Makes(s', t, v) && Open(s', t);
    }
  }

  // The placeholder of a task that ends gets its GUID, or goes.
  lemma EndedMakerLeavesNoBlank(s: State, h: Id, r: Response, v: Id)
    requires Sound(s) && Known(s, h, r) && !StillRunning(s.tasks[r.task], r) && GivesGuid(s, Respond(h, r))
    requires MakesVm(s.tasks[r.task].kind) && v == s.tasks[r.task].targetId && v in s.vms && s.vms[v].guid.None?
    ensures v in ResponseSpec(s, h, r).vms ==> ResponseSpec(s, h, r).vms[v].guid.Some?
  {
    if r.status.SaysSucceeded? {
      CreateStampsExactly(s, h, r, v);
    } else {
      EndedFields(s, h, r);
      FailedPlaceholderGoes(BlockOf(s), r, Responses.Finished(s.tasks[r.task], r, s.now), SenderOf(s, h));
    }
  }

  lemma OtherTasksStayOpen(s: State, h: Id, r: Response, t: Id)
    requires Open(s, t) && (t != r.task || !Known(s, h, r) || StillRunning(s.tasks[r.task], r))
    ensures Open(ResponseSpec(s, h, r), t)
  {
    if Known(s, h, r) && !StillRunning(s.tasks[r.task], r) { EndedLeavesOthers(s, h, r, t); }
  }

  lemma EndedLeavesOthers(s: State, h: Id, r: Response, t: Id)
    requires Known(s, h, r) && Open(s, t) && t != r.task
    ensures Open(Ended(s, h, r), t)
  {
    EndedFields(s, h, r);
  }

  lemma ResponseKeepsOpen(s: State, h: Id, r: Response)
    requires Sound(s) && GivesGuid(s, Respond(h, r))
    ensures OpenMakersStay(s, ResponseSpec(s, h, r))
  {
    ResponseBlanks(s, h, r);
    forall v, t | v in ResponseSpec(s, h, r).vms && ResponseSpec(s, h, r).vms[v].guid.None? && v in s.vms && Makes(s, t, v) && Open(s, t)
      ensures Open(ResponseSpec(s, h, r), t)
    {
      if Known(s, h, r) && !StillRunning(s.tasks[r.task], r) && t == r.task {
        EndedMakerLeavesNoBlank(s, h, r, v);
        assert false;
      } else {
        OtherTasksStayOpen(s, h, r, t);
      }
    }
  }

  lemma SweepKeepsOpen(s: State)
    ensures OpenMakersStay(s, SweepSpec(s))
  {
    var s' := SweepSpec(s);
    forall v, t | v in s'.vms && s'.vms[v].guid.None? && v in s.vms && Makes(s, t, v) && Open(s, t) ensures Open(s', t) {
      SweepIsExact(s, t);
      assert v !in Orphans(s.vms, s'.tasks);
    }
  }

  lemma RemovalKeepsOpen(s: State, h: Id)
    ensures OpenMakersStay(s, RemoveHostSpec(s, h).state)
  {
  }

  lemma OthersKeepOpen(s: State, a: Action)
    requires Sound(s) && EndsNothing(a)
    ensures OpenMakersStay(s, Next(s, a))
  {
    NextAdds(s, a);
    TasksAreOld(s);
    assert forall t :: t in s.tasks ==> t in Next(s, a).tasks && Next(s, a).tasks[t] == s.tasks[t];
  }

  lemma InsertKeepsOpen(s: State, h: Id, kind: Kind, columns: Columns, published: bool)
    requires OpenMakers(s) && h in s.hosts && MakesVm(kind) && s.nextId !in s.vms && s.nextId + 1 !in s.tasks
    ensures OpenMakers(InsertSpec(s, h, kind, columns, published).state)
  {
    var s' := InsertSpec(s, h, kind, columns, published).state;
    forall v | v in s'.vms && s'.vms[v].guid.None? ensures exists t :: Makes(s', t, v) && Open(s', t) {
      if v in s.vms {
        var t :| Makes(s, t, v) && Open(s, t);
        assert Makes(s', t, v) && Open(s', t);
      } else {
        assert Makes(s', s.nextId + 1, v) && Open(s', s.nextId + 1);
      }
    }
  }

  lemma StepKeepsOpen(s: State, a: Action)
    requires Sound(s) && GivesGuid(s, a) && !a.ProvisionVm?
    ensures OpenMakersStay(s, Next(s, a))
  {
    match a
    case Respond(h, r) => ResponseKeepsOpen(s, h, r);
    case Sweep => SweepKeepsOpen(s);
    case RemoveHost(h) => RemovalKeepsOpen(s, h);
    case _ => OthersKeepOpen(s, a);
  }

  lemma ProvisionKeepsOpen(s: State, h: Id, origin: Origin, destination: string, columns: Columns, published: bool)
    requires Sound(s) && OpenMakers(s)
    ensures OpenMakers(ProvisionSpec(s, h, origin, destination, columns, published).state)
  {
    if h in s.hosts {
      Locks.NewIdsAreFree(s);
      InsertKeepsOpen(s, h, ProvisionKind(origin), columns, published);
    }
  }

  lemma NextKeepsOpenMakers(s: State, a: Action)
    requires Sound(s) && OpenMakers(s) && GivesGuid(s, a)
    ensures OpenMakers(Next(s, a))
  {
    if a.ProvisionVm? {
      ProvisionKeepsOpen(s, a.host, a.origin, a.destination, a.columns, a.published);
    } else {
      BlankStep(s, a);
      StepKeepsOpen(s, a);
      OpenCarryOver(s, Next(s, a));
    }
  }

  lemma BlankStep(s: State, a: Action)
    requires Sound(s) && !a.ProvisionVm?
    ensures NoNewBlanks(s.vms, Next(s, a).vms) && MakersStay(s, Next(s, a))
  {
    StepBlanks(s, a);
    if a.RemoveHost? {
      RemovalKeepsMakers(s, a.host);
    } else {
      NextProgresses(s, a);
      TasksStay(s, a);
      TasksAreOld(s);
      FollowedMakersStay(s, Next(s, a));
    }
  }

  ghost predicate GuidGivingRun(s: State, actions: seq<Action>) {
    forall i :: 0 <= i < |actions| ==> GivesGuid(Run(s, actions[..i]), actions[i])
  }

  lemma {:induction false} RunHasOpenMakers(cfg: Settings, now: Time, actions: seq<Action>)
    requires GuidGivingRun(Empty(cfg, now), actions)
    ensures OpenMakers(Run(Empty(cfg, now), actions))
  {
    if actions != [] {
      var init, a, start := actions[..|actions| - 1], actions[|actions| - 1], Empty(cfg, now);
      forall i | 0 <= i < |init| ensures GivesGuid(Run(start, init[..i]), init[i]) { assert init[..i] == actions[..i]; }
      RunHasOpenMakers(cfg, now, init);
      RunSound(cfg, now, init);
      assert actions[..|init|] == init;
      NextKeepsOpenMakers(Run(start, init), a);
    }
  }

  /** In runs whose successful creates give their GUID: after a sweep, every VM without one has
      a create or clone task that is open and within its deadline. */
  lemma EveryPlaceholderIsInTime(cfg: Settings, now: Time, actions: seq<Action>, s: State, v: Id)
    requires GuidGivingRun(Empty(cfg, now), actions) && s == Run(Empty(cfg, now), actions)
    requires v in SweepSpec(s).vms && SweepSpec(s).vms[v].guid.None?
    ensures exists t :: Makes(SweepSpec(s), t, v) && Open(SweepSpec(s), t)
                     && !PastDeadline(s.cfg, SweepSpec(s).tasks[t], s.now)
  {
    RunHasOpenMakers(cfg, now, actions);
    var t :| Makes(s, t, v) && Open(s, t);
    SweepKeepsOpen(s);
    SweepIsExact(s, t);
    assert Makes(SweepSpec(s), t, v) && Open(SweepSpec(s), t);
  }
}
