/** The audit trail of a snapshot: which vanished rows it records. */
module RemovalLaws {
  import opened Wrappers
  import opened Model
  import opened Audit
  import opened Inventory
  import opened InventoryLaws
  import opened Invariants
  import SnapshotSteps

  /** A row whose disappearance nobody asked for. */
  predicate Unasked(r: Recon, tasks: map<Id, Task>, host: Id, v: Id)
    requires IndexSound(r)
  {
    Unreported(r, v, host) && !DeleteInFlight(tasks, v)
  }

  // Event `e` is the removal event of a row below `n` that nobody removed.
  ghost predicate Honest(e: Event, r: Recon, tasks: map<Id, Task>, host: Id, now: Time, n: Id)
    requires IndexSound(r)
  {
    && e.target < n && Unasked(r, tasks, host, e.target)
    && e == NewEvent(now, VmInventoryRemove, e.target, Some(host), r.vms[e.target].cluster, None)
  }

  // Row `v` has its event from `first` on.
  ghost predicate OnRecord(events: map<Id, Event>, first: Id, v: Id) {
    exists e :: e in events && e >= first && events[e].target == v
  }

  // `events` from `first` on are one removal event for each row below `n` that nobody removed.
  ghost predicate RecordsRows(events: map<Id, Event>, first: Id, r: Recon, tasks: map<Id, Task>, host: Id, now: Time, n: Id)
    requires IndexSound(r)
  {
    && (forall e :: e in events && e >= first ==> Honest(events[e], r, tasks, host, now, n))
    && (forall v: Id :: v < n && Unasked(r, tasks, host, v) ==> OnRecord(events, first, v))
    && (forall d, e :: d in events && e in events && d >= first && e >= first && events[d].target == events[e].target ==> d == e)
  }

  lemma RecordGrows(events: map<Id, Event>, first: Id, next: Id, event: Event, v: Id)
    requires next !in events && next >= first
    ensures OnRecord(events, first, v) ==> OnRecord(events[next := event], first, v)
    ensures OnRecord(events[next := event], first, event.target)
  {
    var after := events[next := event];
    assert next in after && after[next] == event;
    if e :| e in events && e >= first && events[e].target == v {
      assert e in after && after[e] == events[e];
    }
  }

  lemma RecordOneMore(events: map<Id, Event>, first: Id, next: Id, r: Recon, tasks: map<Id, Task>, host: Id, now: Time, v: Id)
    requires IndexSound(r) && RecordsRows(events, first, r, tasks, host, now, v) && next >= first
    requires forall e :: e in events ==> e < next
    ensures RecordsRows(if Unasked(r, tasks, host, v)
                        then events[next := NewEvent(now, VmInventoryRemove, v, Some(r.vms[v].host), r.vms[v].cluster, None)]
                        else events, first, r, tasks, host, now, v + 1)
  {
    forall e | e in events && e >= first ensures Honest(events[e], r, tasks, host, now, v + 1) {
      assert Honest(events[e], r, tasks, host, now, v);
    }
    if Unasked(r, tasks, host, v) {
      var event := NewEvent(now, VmInventoryRemove, v, Some(r.vms[v].host), r.vms[v].cluster, None);
      forall u: Id | u < v + 1 && Unasked(r, tasks, host, u) ensures OnRecord(events[next := event], first, u) {
        RecordGrows(events, first, next, event, u);
      }
      assert Honest(event, r, tasks, host, now, v + 1);
    }
  }

  // The ledger has grown from `l`: what was there is there, and what is there has an id.
  ghost predicate Grown(l: Ledger, l': Ledger) {
    && l.nextId <= l'.nextId && (forall e :: e in l'.events ==> e < l'.nextId)
    && (forall e :: e in l.events ==> e in l'.events && l'.events[e] == l.events[e])
  }

  lemma GrowOneMore(l: Ledger, rest: Ledger, event: Event)
    requires Grown(l, rest) && forall e :: e in l.events ==> e < l.nextId
    ensures Grown(l, Ledger(rest.events[rest.nextId := event], rest.nextId + 1))
  {
  }

  lemma {:induction false} RemovalsRecorded(l: Ledger, r: Recon, tasks: map<Id, Task>, host: Id, now: Time, n: Id)
    requires IndexSound(r) && forall e :: e in l.events ==> e < l.nextId
    ensures var l' := RemovalEvents(l, r, tasks, host, now, n);
      RecordsRows(l'.events, l.nextId, r, tasks, host, now, n) && Grown(l, l')
  {
    if n > 0 {
      var rest, v := RemovalEvents(l, r, tasks, host, now, n - 1), n - 1;
      RemovalsRecorded(l, r, tasks, host, now, v);
      RecordOneMore(rest.events, l.nextId, rest.nextId, r, tasks, host, now, v);
      if Unasked(r, tasks, host, v) {
        GrowOneMore(l, rest, NewEvent(now, VmInventoryRemove, v, Some(r.vms[v].host), r.vms[v].cluster, None));
      }
    }
  }

  /** The removal of row `v` is on record after the snapshot. */
  ghost predicate Recorded(s: State, s': State, v: Id) {
    exists e :: e in s'.events && e !in s.events && s'.events[e].action.VmInventoryRemove? && s'.events[e].target == v
  }

  /** A delete of this VM is queued or running. */
  ghost predicate BeingDeleted(s: State, v: Id) {
    exists t :: t in s.tasks && s.tasks[t].kind.VmDelete? && s.tasks[t].targetId == v
             && (s.tasks[t].status.Queued? || s.tasks[t].status.Running?)
  }

  ghost predicate OncePerRow(before: map<Id, Event>, after: map<Id, Event>) {
    forall d, e :: d in after.Keys - before.Keys && e in after.Keys - before.Keys && after[d].target == after[e].target ==> d == e
  }

  lemma InFlightMeans(s: State, v: Id)
    ensures DeleteInFlight(s.tasks, v) <==> BeingDeleted(s, v)
  {
  }

  lemma SnapshotRecords(s: State, h: Id, items: seq<Item>, v: Id)
    requires Sound(s) && h in s.hosts && WellFormed(items) && v in s.vms
    ensures Recorded(s, SnapshotSpec(s, h, items), v) <==> v !in SnapshotSpec(s, h, items).vms && !DeleteInFlight(s.tasks, v)
    ensures forall e :: e in s.events ==> e in SnapshotSpec(s, h, items).events && SnapshotSpec(s, h, items).events[e] == s.events[e]
    ensures OncePerRow(s.events, SnapshotSpec(s, h, items).events)
  {
    SnapshotSteps.SoundIsReadable(s, h);
    var r := WalkOutcome(s, h, items);
    RemovedExactly(s, h, items, r, v);
    assert SnapshotSpec(s, h, items).events == Committed(s, h, r).events;
    CommittedRecords(s, h, r, v);
  }

  /** A snapshot records the removal of a row exactly when it removes it and no delete of that
      VM is under way; it records it once, and every older event stays. */
  lemma RemovalIsRecordedExactly(s: State, h: Id, items: seq<Item>, v: Id)
    requires Sound(s) && h in s.hosts && WellFormed(items) && v in s.vms
    ensures var s' := SnapshotSpec(s, h, items);
      && (Recorded(s, s', v) <==> v !in s'.vms && !BeingDeleted(s, v))
      && (forall e :: e in s.events ==> e in s'.events && s'.events[e] == s.events[e])
      && OncePerRow(s.events, s'.events)
  {
    SnapshotRecords(s, h, items, v);
    InFlightMeans(s, v);
  }

  // A row nobody reported is one from before the walk, as it was.
  lemma UnreportedIsOld(s: State, r: Recon, rep: Reporter, scope: set<Id>, h: Id, v: Id)
    requires IndexSound(r) && Walked(s, r, rep, scope) && Unreported(r, v, h)
    ensures v in s.vms && r.vms[v] == s.vms[v]
  {
    assert v in s.vms ==> Carried(s.vms[v], r.vms[v], rep, scope, r.seen);
  }

  /** Every event a snapshot adds is the removal of a row it removed, in the name of its host. */
  lemma RemovalEventIs(s: State, h: Id, items: seq<Item>, e: Id)
    requires Sound(s) && h in s.hosts && WellFormed(items)
    requires e in SnapshotSpec(s, h, items).events && e !in s.events
    ensures var s' := SnapshotSpec(s, h, items);
      var v := s'.events[e].target;
      && v in s.vms && v !in s'.vms
      && s'.events[e] == Event(s.now, VmInventoryRemove, v, Some(h), s.vms[v].cluster, None, Settled(Succeeded), None)
  {
    SnapshotSteps.SoundIsReadable(s, h);
    var r := WalkOutcome(s, h, items);
    assert SnapshotSpec(s, h, items).events == Committed(s, h, r).events;
    AddedEventIs(s, h, r, e);
    var v := Committed(s, h, r).events[e].target;
    UnreportedIsOld(s, r, Reporting(s, h), ScopeHosts(s.hosts, h), h, v);
    assert v in RemovedRows(r, h);
  }

  lemma AddedEventIs(s: State, h: Id, r: Recon, e: Id)
    requires FreshIds(s) && IndexSound(r) && s.nextId <= r.nextId
    requires e in Committed(s, h, r).events && e !in s.events
    ensures Honest(Committed(s, h, r).events[e], r, s.tasks, h, s.now, r.nextId)
  {
    RemovalsRecorded(Ledger(s.events, r.nextId), r, s.tasks, h, s.now, r.nextId);
    OldAndNew(s, h, r);
  }

  lemma RemovedExactly(s: State, h: Id, items: seq<Item>, r: Recon, v: Id)
    requires Readable(s, h) && IndexSound(r) && Walked(s, r, Reporting(s, h), ScopeHosts(s.hosts, h)) && v in s.vms
    requires SnapshotSpec(s, h, items).vms == r.vms - RemovedRows(r, h)
    ensures v in r.vms && v < r.nextId
    ensures v in SnapshotSpec(s, h, items).vms <==> !Unreported(r, v, h)
  {
    assert v in RemovedRows(r, h) <==> Unreported(r, v, h);
  }

  lemma CommittedRecords(s: State, h: Id, r: Recon, v: Id)
    requires FreshIds(s) && IndexSound(r) && s.nextId <= r.nextId && v in r.vms && v < r.nextId
    ensures var s' := Committed(s, h, r);
      && (Recorded(s, s', v) <==> Unasked(r, s.tasks, h, v))
      && (forall e :: e in s.events ==> e in s'.events && s'.events[e] == s.events[e])
      && OncePerRow(s.events, s'.events)
  {
    RemovalsRecorded(Ledger(s.events, r.nextId), r, s.tasks, h, s.now, r.nextId);
    OldAndNew(s, h, r);
    var events := Committed(s, h, r).events;
    if Unasked(r, s.tasks, h, v) {
      var e :| e in events && e >= r.nextId && events[e].target == v;
      assert e !in s.events;
    }
  }

  lemma {:induction false} EventsAreOldOrNew(l: Ledger, r: Recon, tasks: map<Id, Task>, host: Id, now: Time, n: Id)
    requires IndexSound(r)
    ensures forall e :: e in RemovalEvents(l, r, tasks, host, now, n).events ==> e in l.events || e >= l.nextId
    ensures l.nextId <= RemovalEvents(l, r, tasks, host, now, n).nextId
  {
    if n > 0 { EventsAreOldOrNew(l, r, tasks, host, now, n - 1); }
  }

  lemma OldAndNew(s: State, h: Id, r: Recon)
    requires IndexSound(r)
    ensures forall e :: e in Committed(s, h, r).events ==> e in s.events || e >= r.nextId
  {
    EventsAreOldOrNew(Ledger(s.events, r.nextId), r, s.tasks, h, s.now, r.nextId);
  }
}
