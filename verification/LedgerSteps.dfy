/** What the steps do to tasks and audit events. */
module LedgerSteps {
  import opened Wrappers
  import opened Model
  import opened Audit
  import opened Inventory
  import opened Invariants
  import Vms

  /** Events may disappear (pruning); new ones belong to no task. */
  ghost predicate OnlyPlain(before: map<Id, Event>, after: map<Id, Event>) {
    forall e :: e in after ==>
      (e in before && after[e] == before[e]) || (after[e].task.None? && after[e].outcome.Settled?)
  }

  // ---- ids ---------------------------------------------------------------------------------

  ghost predicate NewOnly(before: set<Id>, after: set<Id>, n: Id) {
    forall k :: k in after ==> k in before || k < n
  }

  /** Whatever is new is named by ids handed out by now. */
  ghost predicate IdsGrow(s: State, s': State) {
    && s.nextId <= s'.nextId
    && NewOnly(s.clusters.Keys, s'.clusters.Keys, s'.nextId) && NewOnly(s.hosts.Keys, s'.hosts.Keys, s'.nextId)
    && NewOnly(s.folders.Keys, s'.folders.Keys, s'.nextId) && NewOnly(s.vms.Keys, s'.vms.Keys, s'.nextId)
    && NewOnly(s.categories.Keys, s'.categories.Keys, s'.nextId) && NewOnly(s.tags.Keys, s'.tags.Keys, s'.nextId)
    && NewOnly(s.overlay.Keys, s'.overlay.Keys, s'.nextId)
    && (forall t :: t in s'.tasks && !(t in s.tasks && s'.tasks[t].targetId == s.tasks[t].targetId) ==>
          t < s'.nextId && s'.tasks[t].targetId < s'.nextId)
    && (forall e :: e in s'.events && !(e in s.events && s'.events[e].task == s.events[e].task) ==>
          e < s'.nextId && (s'.events[e].task.Some? ==> s'.events[e].task.value < s'.nextId))
    && (forall v :: v in s'.locks && !(v in s.locks && s'.locks[v].task == s.locks[v].task) ==>
          v < s'.nextId && s'.locks[v].task < s'.nextId)
  }

  lemma IdsCarryOver(s: State, s': State)
    requires Sound(s) && IdsGrow(s, s')
    ensures Keeps(Ids, s')
  {
    assert Holds(Ids, s);
  }

  lemma NewIdIsNew(s: State)
    requires Sound(s)
    ensures s.nextId !in s.hosts && s.nextId !in s.tags && s.nextId !in s.categories
  {
    assert Holds(Ids, s);
  }

  // ---- tasks and events ----------------------------------------------------------------------

  lemma PlainEventsKeepLedger(s: State, s': State)
    requires Sound(s) && s'.tasks == s.tasks && s.hosts.Keys <= s'.hosts.Keys && OnlyPlain(s.events, s'.events)
    ensures Keeps(Records, s')
  {
    assert Holds(Records, s);
  }

  /** A new open task, with at most one event, which is pending. */
  ghost predicate Queues(s: State, s': State, t: Id, e: Id) {
    && t >= s.nextId && e >= s.nextId && s'.hosts == s.hosts
    && t in s'.tasks && s'.tasks == s.tasks[t := s'.tasks[t]]
    && TaskSound(s'.tasks[t]) && !Terminal(s'.tasks[t].status) && s'.tasks[t].host in s.hosts
    && (s'.events == s.events
        || (e in s'.events && s'.events == s.events[e := s'.events[e]]
            && s'.events[e].outcome.Pending? && s'.events[e].task == Some(t)))
  }

  lemma NewTaskKeepsLedger(s: State, s': State, t: Id, e: Id)
    requires Sound(s) && Queues(s, s', t, e)
    ensures Keeps(Records, s')
  {
    assert Holds(Ids, s) && Holds(Records, s);
    assert LedgerSound(s');
  }

  /** Some tasks end and their events are settled in the same transaction. */
  ghost predicate Ends(s: State, s': State, ids: set<Id>, status: Status, error: Option<string>) {
    && s'.hosts == s.hosts && s'.tasks.Keys == s.tasks.Keys
    && (forall t :: t in s.tasks ==> s'.tasks[t].host == s.tasks[t].host && s'.tasks[t].targetId == s.tasks[t].targetId)
    && (forall t :: t in s.tasks ==> TaskSound(s.tasks[t]) ==> TaskSound(s'.tasks[t]))
    && (forall t :: t in s.tasks ==> (Terminal(s'.tasks[t].status) <==> t in ids || Terminal(s.tasks[t].status)))
    && s'.events == Settle(s.events, ids, status, error)
  }

  lemma EndingTasksKeepsLedger(s: State, s': State, ids: set<Id>, status: Status, error: Option<string>)
    requires Sound(s) && Ends(s, s', ids, status, error)
    ensures Keeps(Records, s')
  {
    assert Holds(Records, s);
    forall e | e in s'.events
      ensures s'.events[e].outcome.Pending? <==> s'.events[e].task.Some? && Open(s', s'.events[e].task.value)
    {
      assert s'.events[e] == SettleOne(s.events[e], ids, status, error);
    }
    assert LedgerSound(s');
  }

  /** Tasks disappear together with their host, and the open ones' events are settled first. */
  lemma DroppingTasksKeepsLedger(s: State, s': State, gone: set<Id>, open: set<Id>, plain: map<Id, Event>, error: Option<string>)
    requires Sound(s) && s'.tasks == s.tasks - gone
    requires forall t :: t in s'.tasks && s.tasks[t].host in s.hosts ==> s'.tasks[t].host in s'.hosts
    requires open == set t | t in gone && t in s.tasks && !Terminal(s.tasks[t].status)
    requires OnlyPlain(s.events, plain) && s'.events == Settle(plain, open, Failed, error)
    ensures Keeps(Records, s')
  {
    assert Holds(Records, s);
    forall e | e in s'.events
      ensures s'.events[e].outcome.Pending? <==> s'.events[e].task.Some? && Open(s', s'.events[e].task.value)
    {
      assert s'.events[e] == SettleOne(plain[e], open, Failed, error);
    }
    assert LedgerSound(s');
  }

  lemma SettledKeys(events: map<Id, Event>, ids: set<Id>, status: Status, error: Option<string>)
    ensures var after := Settle(events, ids, status, error);
      after.Keys == events.Keys && forall e :: e in events ==> after[e].task == events[e].task
  {
  }

  // The events a snapshot adds.
  lemma {:induction false} RemovalEventsArePlain(l: Ledger, r: Recon, tasks: map<Id, Task>, host: Id, now: Time, n: Id)
    requires IndexSound(r)
    ensures var l' := RemovalEvents(l, r, tasks, host, now, n);
      && OnlyPlain(l.events, l'.events) && l.nextId <= l'.nextId
      && forall e :: e in l'.events ==> e in l.events || e < l'.nextId
  {
    if n > 0 {
      RemovalEventsArePlain(l, r, tasks, host, now, n - 1);
    }
  }
}
