/** Queueing, creating and forgetting VMs keep the tables sound. */
module WorkSteps {
  import opened Wrappers
  import opened Model
  import opened CacheOps
  import opened Audit
  import opened Vms
  import opened HostActions
  import opened Invariants
  import opened RowSteps
  import opened LedgerSteps

  // The cache is touched for one VM only, and a new lock names a task of this step.
  ghost predicate CacheTouched(s: State, s': State, v: Id) {
    && s'.overlay.Keys <= s.overlay.Keys + {v}
    && forall x :: x in s'.locks && !(x in s.locks && s'.locks[x] == s.locks[x]) ==> x == v && s'.locks[x].task < s'.nextId
  }

  // One task is added, with its event or without.
  ghost predicate TaskAdded(s: State, s': State, t: Id, task: Task) {
    && s.nextId <= t < s'.nextId && s'.tasks == s.tasks[t := task]
    && TaskSound(task) && !Terminal(task.status) && task.host in s.hosts && task.targetId < s'.nextId
    && (s'.events == s.events
        || (t + 1 < s'.nextId && exists e: Event :: s'.events == s.events[t + 1 := e] && e.outcome.Pending? && e.task == Some(t)))
  }

  lemma TaskAddedLedger(s: State, s': State, t: Id, task: Task)
    requires Sound(s) && TaskAdded(s, s', t, task) && s'.hosts == s.hosts
    ensures Keeps(Records, s')
  {
    NewTaskKeepsLedger(s, s', t, t + 1);
  }

  lemma WorkIds(s: State, s': State, v: Id)
    requires s.nextId <= s'.nextId && v < s'.nextId && CacheTouched(s, s', v) && SameSurroundings(s, s')
    requires s'.vms.Keys <= s.vms.Keys + {v}
    requires (s'.tasks == s.tasks && s'.events == s.events) || (exists t, task :: TaskAdded(s, s', t, task))
    ensures IdsGrow(s, s')
  {
  }

  // ---- actions on VMs --------------------------------------------------------------------

  lemma WorkQueued(s: State, s': State, v: Id, t: Id, task: Task)
    requires Sound(s) && v in s.vms && v < s.nextId
    requires TaskAdded(s, s', t, task) && CacheTouched(s, s', v) && SameSurroundings(s, s')
    requires Kept(s.vms, s'.vms)
    ensures Sound(s')
  {
    WorkIds(s, s', v);
    IdsCarryOver(s, s');
    KeptTables(s, s');
    TaskAddedLedger(s, s', t, task);
    Assemble(s');
  }

  // A refused publish: only the cache and the id counter remember it.
  lemma WorkRefused(s: State, s': State, v: Id)
    requires Sound(s) && v < s'.nextId && s.nextId <= s'.nextId && CacheTouched(s, s', v)
    requires s' == s.(nextId := s'.nextId, overlay := s'.overlay, locks := s'.locks)
    ensures Sound(s')
  {
    WorkIds(s, s', v);
    IdsCarryOver(s, s');
    KeptTables(s, s');
    PlainEventsKeepLedger(s, s');
    Assemble(s');
  }

  lemma EnqueueCache(s: State, v: Id, kind: Kind, published: bool)
    requires v in s.vms && v < s.nextId
    ensures CacheTouched(s, EnqueueSpec(s, v, kind, published).state, v)
  {
  }

  lemma OptimisticStays(vm: Vm, kind: Kind)
    ensures SamePlace(vm, Optimistic(vm, kind))
  {
  }

  lemma EnqueueAdds(s: State, v: Id, kind: Kind)
    requires v in s.vms && v < s.nextId && s.vms[v].host in s.hosts
    ensures var s' := EnqueueSpec(s, v, kind, true).state;
      && TaskAdded(s, s', s.nextId, NewTask(kind, OnVm, v, s.vms[v].host, s.now))
      && SameSurroundings(s, s') && s'.vms == s.vms[v := Optimistic(s.vms[v], kind)]
  {
  }

  lemma EnqueueSound(s: State, v: Id, kind: Kind, published: bool)
    requires Sound(s) && v in s.vms && v < s.nextId && s.vms[v].host in s.hosts
    ensures Sound(EnqueueSpec(s, v, kind, published).state)
  {
    var s' := EnqueueSpec(s, v, kind, published).state;
    EnqueueCache(s, v, kind, published);
    if published {
      EnqueueAdds(s, v, kind);
      OptimisticStays(s.vms[v], kind);
      OneRowKept(s.vms, v, Optimistic(s.vms[v], kind));
      WorkQueued(s, s', v, s.nextId, NewTask(kind, OnVm, v, s.vms[v].host, s.now));
    } else {
      WorkRefused(s, s', v);
    }
  }

  lemma RowIsPlaced(s: State, v: Id)
    requires Sound(s) && v in s.vms
    ensures v < s.nextId && s.vms[v].host in s.hosts && s.vms[v].cluster == s.hosts[s.vms[v].host].cluster
  {
    assert Holds(Ids, s) && Holds(Places, s);
  }

  lemma ActionSound(s: State, v: Id, kind: Kind, destination: string, published: bool)
    requires Sound(s)
    ensures Sound(ActionSpec(s, v, kind, destination, published).state)
  {
    if v in s.vms {
      RowIsPlaced(s, v);
      EnqueueSound(s, v, kind, published);
    }
  }

  // ---- create and clone -------------------------------------------------------------------------

  lemma PlaceholderFits(s: State, s': State, h: Id, columns: Columns)
    requires Sound(s) && h in s.hosts && SameSurroundings(s, s')
    requires s'.vms == s.vms[s.nextId := Placeholder(h, s.hosts[h], columns)]
    ensures RowsFit(s, s'.vms) && SameTags(s, s')
  {
    assert Holds(Ids, s);
    KeptFits(s, s.vms);
    forall v | v in s.vms ensures Carries(s, s.vms[v], s'.vms[v]) {}
  }

  lemma PlaceholderGuids(s: State, s': State, h: Id, columns: Columns)
    requires Sound(s) && h in s.hosts
    requires s'.vms == s.vms[s.nextId := Placeholder(h, s.hosts[h], columns)]
    ensures Keeps(Guids, s')
  {
    assert Holds(Guids, s);
    assert GuidsUnique(s'.vms);
  }

  lemma VmInserted(s: State, s': State, h: Id, columns: Columns, t: Id, task: Task)
    requires Sound(s) && h in s.hosts && TaskAdded(s, s', t, task) && CacheTouched(s, s', s.nextId) && SameSurroundings(s, s')
    requires s'.vms == s.vms[s.nextId := Placeholder(h, s.hosts[h], columns)]
    ensures Sound(s')
  {
    WorkIds(s, s', s.nextId);
    IdsCarryOver(s, s');
    PlaceholderFits(s, s', h, columns);
    PlacesCarryOver(s, s');
    LabelsCarryOver(s, s');
    PlaceholderGuids(s, s', h, columns);
    TaskAddedLedger(s, s', t, task);
    Assemble(s');
  }

  lemma InsertCache(s: State, h: Id, kind: Kind, columns: Columns, published: bool)
    requires h in s.hosts
    ensures CacheTouched(s, InsertSpec(s, h, kind, columns, published).state, s.nextId)
  {
  }

  lemma InsertSound(s: State, h: Id, kind: Kind, columns: Columns, published: bool)
    requires Sound(s) && h in s.hosts
    ensures Sound(InsertSpec(s, h, kind, columns, published).state)
  {
    var s' := InsertSpec(s, h, kind, columns, published).state;
    InsertCache(s, h, kind, columns, published);
    if published {
      VmInserted(s, s', h, columns, s.nextId + 1, NewTask(kind, OnVm, s.nextId, h, s.now));
    } else {
      WorkRefused(s, s', s.nextId);
    }
  }

  lemma ProvisionSound(s: State, h: Id, origin: Origin, destination: string, columns: Columns, published: bool)
    requires Sound(s)
    ensures Sound(ProvisionSpec(s, h, origin, destination, columns, published).state)
  {
    if h in s.hosts { InsertSound(s, h, ProvisionKind(origin), columns, published); }
  }

  // ---- forget -------------------------------------------------------------------------------------

  lemma Forgotten(s: State, s': State, v: Id, e: Event)
    requires Sound(s) && e.task.None? && e.outcome.Settled?
    requires s' == s.(nextId := s.nextId + 1, events := s.events[s.nextId := e], locks := s.locks - {v},
                      overlay := s.overlay - {v}, vms := s.vms - {v})
    ensures Sound(s')
  {
    assert IdsGrow(s, s');
    IdsCarryOver(s, s');
    KeptTables(s, s');
    PlainEventsKeepLedger(s, s');
    Assemble(s');
  }

  lemma ForgetSound(s: State, v: Id)
    requires Sound(s)
    ensures Sound(ForgetSpec(s, v).state)
  {
    if ForgetSpec(s, v).result.Ok? {
      Forgotten(s, ForgetSpec(s, v).state, v, NewEvent(s.now, VmForget, v, Some(s.vms[v].host), s.vms[v].cluster, None));
    }
  }

  // ---- host actions ---------------------------------------------------------------------------------

  lemma HostWorkQueued(s: State, s': State, h: Id, t: Id, task: Task)
    requires Sound(s) && h in s.hosts && TaskAdded(s, s', t, task) && SameSurroundings(s, s')
    requires s'.vms == s.vms && s'.overlay == s.overlay && s'.locks == s.locks
    ensures Sound(s')
  {
    WorkIds(s, s', t);
    IdsCarryOver(s, s');
    KeptTables(s, s');
    TaskAddedLedger(s, s', t, task);
    Assemble(s');
  }

  lemma HostTaskAdds(s: State, h: Id, kind: Kind)
    requires h in s.hosts && h < s.nextId
    ensures TaskAdded(s, EnqueueHostSpec(s, h, kind, true).state, s.nextId, NewTask(kind, OnHost, h, h, s.now))
  {
    var s' := EnqueueHostSpec(s, h, kind, true).state;
    var e := NewEvent(s.now, OfTask(kind), h, Some(h), s.hosts[h].cluster, Some(s.nextId));
    assert s'.events == s.events || s'.events == s.events[s.nextId + 1 := e];
  }

  lemma HostTaskSound(s: State, h: Id, kind: Kind, published: bool)
    requires Sound(s) && h in s.hosts && h < s.nextId
    ensures Sound(EnqueueHostSpec(s, h, kind, published).state)
  {
    var s' := EnqueueHostSpec(s, h, kind, published).state;
    if published {
      HostTaskAdds(s, h, kind);
      HostWorkQueued(s, s', h, s.nextId, NewTask(kind, OnHost, h, h, s.now));
    } else {
      WorkRefused(s, s', h);
    }
  }

  lemma HostIsPlaced(s: State, h: Id)
    requires Sound(s) && h in s.hosts
    ensures h < s.nextId
  {
    assert Holds(Ids, s);
  }

  lemma HostActionSound(s: State, h: Id, kind: Kind, published: bool)
    requires Sound(s)
    ensures Sound(HostActionSpec(s, h, kind, published).state)
  {
    if h in s.hosts {
      HostIsPlaced(s, h);
      HostTaskSound(s, h, kind, published);
    }
  }
}
