/** Responses and the sweeper keep the tables sound. */
module ResponseSteps {
  import opened Wrappers
  import opened Model
  import opened CacheOps
  import opened Audit
  import opened Responses
  import opened Worker
  import opened Invariants
  import opened RowSteps
  import opened LedgerSteps

  // ---- responses ---------------------------------------------------------------------------------

  lemma ClosedSteps(s: State, r: Response)
    requires r.task in s.tasks
    ensures var t, s' := Responses.Finished(s.tasks[r.task], r, s.now), Closed(s, r);
      Ends(s, s', {r.task}, t.status, t.error) && IdsGrow(s, s') && s'.vms == s.vms && SameSurroundings(s, s')
  {
    var t := Responses.Finished(s.tasks[r.task], r, s.now);
    SettledKeys(s.events, {r.task}, t.status, t.error);
  }

  lemma ClosedSound(s: State, r: Response)
    requires Sound(s) && r.task in s.tasks
    ensures Sound(Closed(s, r))
  {
    var t, s' := Responses.Finished(s.tasks[r.task], r, s.now), Closed(s, r);
    ClosedSteps(s, r);
    IdsCarryOver(s, s');
    KeptTables(s, s');
    EndingTasksKeepsLedger(s, s', {r.task}, t.status, t.error);
    Assemble(s');
  }

  lemma SenderIsSynced(s: State, h: Id)
    requires Sound(s) && h in s.hosts
    ensures Synced(s.vms, SenderOf(s, h))
  {
    assert Holds(Places, s);
  }

  lemma LandTables(s: State, h: Id, r: Response, t: Task)
    requires Sound(s) && h in s.hosts
    ensures var s' := Land(s, VmBlock(BlockOf(s), r, t, SenderOf(s, h)));
      Keeps(Places, s') && Keeps(Guids, s') && Keeps(Labels, s')
  {
    var b := VmBlock(BlockOf(s), r, t, SenderOf(s, h));
    var s' := Land(s, b);
    SenderIsSynced(s, h);
    BlockRows(BlockOf(s), r, t, SenderOf(s, h));
    StampedTables(s, s', r, t);
  }

  lemma StampedTables(s: State, s': State, r: Response, t: Task)
    requires Sound(s) && Stamps(s.vms, r, t, s'.vms) && SameSurroundings(s, s')
    ensures Keeps(Places, s') && Keeps(Guids, s') && Keeps(Labels, s')
  {
    assert Holds(Guids, s) && Holds(Places, s);
    StampsFit(s, r, t, s'.vms);
    PlacesCarryOver(s, s');
    LabelsCarryOver(s, s');
  }

  lemma LandSteps(s: State, h: Id, r: Response, t: Task)
    requires Synced(s.vms, SenderOf(s, h)) && forall v :: v in s.vms ==> v < s.nextId
    ensures var s' := Land(s, VmBlock(BlockOf(s), r, t, SenderOf(s, h)));
      IdsGrow(s, s') && s'.tasks == s.tasks && s'.events == s.events && s'.hosts == s.hosts
  {
    var b := VmBlock(BlockOf(s), r, t, SenderOf(s, h));
    BlockRows(BlockOf(s), r, t, SenderOf(s, h));
    if !b.raised { StampsKeys(s.vms, r, t, b.vms); }
  }

  lemma StampsKeys(vms: map<Id, Vm>, r: Response, t: Task, after: map<Id, Vm>)
    requires Stamps(vms, r, t, after)
    ensures after.Keys <= vms.Keys
  {
  }

  lemma RowsBelow(s: State)
    requires Sound(s)
    ensures forall v :: v in s.vms ==> v < s.nextId
  {
    assert Holds(Ids, s);
  }

  lemma LandSound(s: State, h: Id, r: Response, t: Task)
    requires Sound(s) && h in s.hosts
    ensures Sound(Land(s, VmBlock(BlockOf(s), r, t, SenderOf(s, h))))
  {
    var s' := Land(s, VmBlock(BlockOf(s), r, t, SenderOf(s, h)));
    SenderIsSynced(s, h);
    RowsBelow(s);
    LandSteps(s, h, r, t);
    IdsCarryOver(s, s');
    LandTables(s, h, r, t);
    PlainEventsKeepLedger(s, s');
    Assemble(s');
  }

  // Only locks, the overlay or the clock change, and no new key appears.
  lemma CacheOnlySound(s: State, s': State)
    requires Sound(s)
    requires s' == s.(now := s'.now, locks := s'.locks) && forall v :: v in s'.locks ==> v in s.locks && s'.locks[v] == s.locks[v]
    ensures Sound(s')
  {
    assert IdsGrow(s, s');
    IdsCarryOver(s, s');
    KeptTables(s, s');
    PlainEventsKeepLedger(s, s');
    Assemble(s');
  }

  lemma ProgressLedger(s: State, t: Id, task: Task)
    requires Sound(s) && t in s.tasks && !Terminal(s.tasks[t].status)
    requires TaskSound(s.tasks[t]) ==> TaskSound(task)
    requires !Terminal(task.status) && task.host == s.tasks[t].host
    ensures Keeps(Records, s.(tasks := s.tasks[t := task]))
  {
    assert Holds(Records, s);
    assert LedgerSound(s.(tasks := s.tasks[t := task]));
  }

  lemma ProgressSound(s: State, t: Id, task: Task)
    requires Sound(s) && t in s.tasks && !Terminal(s.tasks[t].status)
    requires TaskSound(s.tasks[t]) ==> TaskSound(task)
    requires !Terminal(task.status) && task.host == s.tasks[t].host && task.targetId == s.tasks[t].targetId
    ensures Sound(s.(tasks := s.tasks[t := task]))
  {
    var s' := s.(tasks := s.tasks[t := task]);
    ProgressLedger(s, t, task);
    assert IdsGrow(s, s');
    IdsCarryOver(s, s');
    KeptTables(s, s');
    Assemble(s');
  }

  lemma TerminalSound(s: State, h: Id, r: Response)
    requires Sound(s) && Known(s, h, r) && h in s.hosts && !StillRunning(s.tasks[r.task], r)
    ensures Sound(ResponseSpec(s, h, r))
  {
    var t := Responses.Finished(s.tasks[r.task], r, s.now);
    ClosedSound(s, r);
    LandSound(Closed(s, r), h, r, t);
    var s2 := Land(Closed(s, r), VmBlock(BlockOf(Closed(s, r)), r, t, SenderOf(Closed(s, r), h)));
    CacheOnlySound(s2, s2.(locks := Released(s2.locks, t.targetId, r.task, s2.now)));
  }

  lemma SenderExists(s: State, h: Id, r: Response)
    requires Sound(s) && Known(s, h, r)
    ensures h in s.hosts
  {
    assert Holds(Records, s);
  }

  lemma ResponseSound(s: State, h: Id, r: Response)
    requires Sound(s)
    ensures Sound(ResponseSpec(s, h, r))
  {
    if Known(s, h, r) {
      var t := s.tasks[r.task];
      SenderExists(s, h, r);
      if StillRunning(t, r) {
        ProgressSound(s, r.task, Progressed(t, r, s.now));
      } else {
        TerminalSound(s, h, r);
      }
    }
  }

  // ---- the sweeper ---------------------------------------------------------------------------------------

  lemma SweepSteps(s: State)
    ensures var s' := SweepSpec(s);
      && IdsGrow(s, s') && Kept(s.vms, s'.vms) && SameSurroundings(s, s')
      && Ends(s, s', StaleTasks(s), Timeout, Some(NO_ANSWER))
  {
    SettledKeys(s.events, StaleTasks(s), Timeout, Some(NO_ANSWER));
  }

  lemma SweepSound(s: State)
    requires Sound(s)
    ensures Sound(SweepSpec(s))
  {
    var s' := SweepSpec(s);
    SweepSteps(s);
    IdsCarryOver(s, s');
    KeptTables(s, s');
    EndingTasksKeepsLedger(s, s', StaleTasks(s), Timeout, Some(NO_ANSWER));
    Assemble(s');
  }
}
