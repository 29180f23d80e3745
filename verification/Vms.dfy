/** Queueing VM work: power and management actions, create, clone, forget
    (app/services/vms.py and the VM routes). */
module Vms {
  import opened Wrappers
  import opened Model
  import opened VmRow
  import opened CacheOps
  import opened Audit
  import opened Placement
  import opened Responses

  datatype Reply = Reply(state: State, result: Result<Id, Error>)

  /** The functions behind the VM actions, delete included. */
  predicate IsVmAction(kind: Kind) {
    match kind
    case VmStart | VmStop | VmShutdown | VmRestart | VmPause | VmDelete | VmEnableMetrics | VmDisableMetrics
       | VmRename | VmEdit | VmMigrate | VmMove | VmStartupChange | MountDvd | EjectDvd | EnableHa | DisableHa
       | VmExportTemplate | NotesEdit | SnapshotCreate | SnapshotRemove | SnapshotRestore | RefreshStatus => true
    case _ => false
  }

  // The one action that takes no lock and leaves no audit event.
  predicate ReadOnly(kind: Kind) {
    kind.RefreshStatus?
  }

  function Clustered(h: Host): bool {
    h.cluster.Some? || h.reportsClustered
  }

  predicate HostAllows(h: Host, destination: string) {
    StorageAllowed(Clustered(h), h.defaultVmPath, destination)
  }

  function NewTask(kind: Kind, target: Target, targetId: Id, host: Id, now: Time): Task {
    Task(kind, Queued, target, targetId, host, now, None, None, Some(0), None)
  }

  // ---- actions on an existing VM -----------------------------------------------------------

  /** The first reason to refuse an action before any lock is tried. */
  function Refusal(s: State, v: Id, kind: Kind, destination: string): Option<Error> {
    if !IsVmAction(kind) then Some(UnknownAction)
    else if v !in s.vms then Some(NotFound)
    else
      var vm := s.vms[v];
      if vm.host !in s.hosts then Some(IntegrityError)
      else if kind == VmMigrate && At(vm.columns, HighlyAvailable) != Bool(true) then Some(HaRequired)
      else if kind == VmMove && NormPath(destination) == "" then Some(Invalid)
      else if kind == VmMove && !HostAllows(s.hosts[vm.host], NormPath(destination)) then Some(StorageNotAllowed)
      else if vm.guid.None? then Some(VmNotReady)
      else if !Online(s.hosts[vm.host], s.cfg, s.now) then Some(HostOffline)
      else None
  }

  function Optimistic(vm: Vm, kind: Kind): Vm {
    if Transitional(kind).Some? then vm.(state := Transitional(kind).value) else vm
  }

  function OptimisticOverlay(overlay: map<Id, Cached>, v: Id, kind: Kind, cfg: Settings, now: Time): map<Id, Cached> {
    if Transitional(kind).Some? then Overlaid(overlay, v, Transitional(kind).value, cfg, now) else overlay
  }

  /** Take the lock, add the task, stamp the optimistic state, publish. When the broker does
      not take the request the transaction is rolled back and the lock freed, but the overlay
      keeps the optimistic state. */
  function EnqueueSpec(s: State, v: Id, kind: Kind, published: bool): Reply
    requires v in s.vms
  {
    var vm, t := s.vms[v], s.nextId;
    var locks := if ReadOnly(kind) then s.locks else Acquired(s.locks, v, t, kind, s.cfg, s.now);
    var overlay := OptimisticOverlay(s.overlay, v, kind, s.cfg, s.now);
    if !published then
      Reply(s.(nextId := t + 1, overlay := overlay,
               locks := if ReadOnly(kind) then locks else Released(locks, v, t, s.now)),
            Err(PublishFailed))
    else
      var queued := s.(
        nextId := t + 1,
        tasks := s.tasks[t := NewTask(kind, OnVm, v, vm.host, s.now)],
        vms := s.vms[v := Optimistic(vm, kind)],
        locks := locks,
        overlay := overlay);
      Reply(if ReadOnly(kind) then queued
            else queued.(nextId := t + 2,
                         events := s.events[t + 1 := NewEvent(s.now, OfTask(kind), v, Some(vm.host), vm.cluster, Some(t))]),
            Ok(t))
  }

  /** An action on VM `v`; `published` says whether the broker takes the request. */
  function ActionSpec(s: State, v: Id, kind: Kind, destination: string, published: bool): Reply {
    var refusal := Refusal(s, v, kind, destination);
    if refusal.Some? then Reply(s, Err(refusal.value))
    else if !ReadOnly(kind) && LockLive(s.locks, v, s.now) then Reply(s, Err(VmLocked))
    else EnqueueSpec(s, v, kind, published)
  }

  method CheckAction(db: Database, ghost cache: Cache, cfg: Settings, now: Time, v: Id, kind: Kind, destination: string)
    returns (refusal: Option<Error>)
    ensures refusal == Refusal(Snap(db, cache, cfg, now), v, kind, destination)
  {
    if !IsVmAction(kind) { return Some(UnknownAction); }
    if v !in db.vms { return Some(NotFound); }
    var vm := db.vms[v];
    if vm.host !in db.hosts { return Some(IntegrityError); }
    var host := db.hosts[vm.host];
    if kind == VmMigrate && At(vm.columns, HighlyAvailable) != Bool(true) { return Some(HaRequired); }
    if kind == VmMove {
      var dest := NormPath(destination);
      if dest == "" { return Some(Invalid); }
      if !HostAllows(host, dest) { return Some(StorageNotAllowed); }
    }
    if vm.guid == None { return Some(VmNotReady); }
    if !Online(host, cfg, now) { return Some(HostOffline); }
    return None;
  }

  /** Lock, task row, optimistic state: everything before the publish. */
  method Prepare(db: Database, cache: Cache, cfg: Settings, now: Time, v: Id, kind: Kind) returns (t: Id)
    requires v in db.vms && (ReadOnly(kind) || !LockLive(cache.locks, v, now))
    modifies db`nextId, db`tasks, db`vms, cache`locks, cache`overlay
    ensures t == old(db.nextId) && db.nextId == t + 1
    ensures db.tasks == old(db.tasks)[t := NewTask(kind, OnVm, v, old(db.vms[v].host), now)]
    ensures db.vms == old(db.vms)[v := Optimistic(old(db.vms[v]), kind)]
    ensures cache.overlay == OptimisticOverlay(old(cache.overlay), v, kind, cfg, now)
    ensures cache.locks == if ReadOnly(kind) then old(cache.locks) else Acquired(old(cache.locks), v, t, kind, cfg, now)
  {
    t := db.NewId();
    if !ReadOnly(kind) {
      var _ := AcquireVmLock(cache, v, t, kind, cfg, now);
    }
    db.tasks := db.tasks[t := NewTask(kind, OnVm, v, db.vms[v].host, now)];
    var transitional := Transitional(kind);
    db.vms := db.vms[v := Optimistic(db.vms[v], kind)];
    if transitional.Some? {
      SetVmState(cache, v, transitional.value, cfg, now);
    }
  }

  /** Publish and record, or roll the rows back and free the lock. */
  method EnqueueRows(db: Database, cache: Cache, cfg: Settings, now: Time, v: Id, kind: Kind, published: bool)
    returns (result: Result<Id, Error>)
    requires v in db.vms && (ReadOnly(kind) || !LockLive(cache.locks, v, now))
    modifies db`nextId, db`tasks, db`vms, db`events, cache`locks, cache`overlay
    ensures var t, vm, audited := old(db.nextId), old(db.vms[v]), published && !ReadOnly(kind);
      && result == (if published then Ok(t) else Err(PublishFailed))
      && db.nextId == (if audited then t + 2 else t + 1)
      && db.tasks == (if published then old(db.tasks)[t := NewTask(kind, OnVm, v, vm.host, now)] else old(db.tasks))
      && db.vms == (if published then old(db.vms)[v := Optimistic(vm, kind)] else old(db.vms))
      && db.events == (if audited then old(db.events)[t + 1 :=
                         NewEvent(now, OfTask(kind), v, Some(vm.host), vm.cluster, Some(t))] else old(db.events))
      && cache.overlay == OptimisticOverlay(old(cache.overlay), v, kind, cfg, now)
      && cache.locks == (if ReadOnly(kind) then old(cache.locks)
                         else if published then Acquired(old(cache.locks), v, t, kind, cfg, now)
                         else Released(Acquired(old(cache.locks), v, t, kind, cfg, now), v, t, now))
  {
    var tasks, vms := db.tasks, db.vms;
    var vm := db.vms[v];
    var t := Prepare(db, cache, cfg, now, v, kind);
    if published {
      if !ReadOnly(kind) {
        Record(db, now, OfTask(kind), v, Some(vm.host), vm.cluster, Some(t));
      }
      result := Ok(t);
    } else {
      db.tasks, db.vms := tasks, vms;
      if !ReadOnly(kind) {
        var _ := ReleaseVmLock(cache, v, t, now);
      }
      result := Err(PublishFailed);
    }
  }

  method Enqueue(db: Database, cache: Cache, cfg: Settings, now: Time, v: Id, kind: Kind, published: bool)
    returns (result: Result<Id, Error>)
    requires v in db.vms && (ReadOnly(kind) || !LockLive(cache.locks, v, now))
    modifies db`nextId, db`tasks, db`vms, db`events, cache`locks, cache`overlay
    ensures Reply(Snap(db, cache, cfg, now), result) == EnqueueSpec(old(Snap(db, cache, cfg, now)), v, kind, published)
  {
    result := EnqueueRows(db, cache, cfg, now, v, kind, published);
  }

  method QueueVmTask(db: Database, cache: Cache, cfg: Settings, now: Time, v: Id, kind: Kind, destination: string,
                     published: bool)
    returns (result: Result<Id, Error>)
    modifies db`nextId, db`tasks, db`vms, db`events, cache`locks, cache`overlay
    ensures Reply(Snap(db, cache, cfg, now), result)
         == ActionSpec(old(Snap(db, cache, cfg, now)), v, kind, destination, published)
  {
    var refusal := CheckAction(db, cache, cfg, now, v, kind, destination);
    if refusal.Some? {
      result := Err(refusal.value);
    } else if !ReadOnly(kind) && LockLive(cache.locks, v, now) {
      result := Err(VmLocked);
    } else {
      result := Enqueue(db, cache, cfg, now, v, kind, published);
    }
  }

  // ---- create and clone ---------------------------------------------------------------------

  // What the new VM is made from. Templates are looked up outside: `home` is the host that has
  // the template, None when there is no such template.
  datatype Origin = Scratch | FromVm(source: Id) | FromTemplate(home: Option<Id>)

  function ProvisionKind(origin: Origin): Kind {
    if origin.Scratch? then VmCreate else VmClone
  }

  /** Is what host `home` exports within reach of host `h`? */
  predicate Shares(hosts: map<Id, Host>, h: Id, home: Id)
    requires h in hosts
  {
    home == h || (home in hosts && hosts[h].cluster.Some? && hosts[home].cluster == hosts[h].cluster)
  }

  function ProvisionRefusal(s: State, h: Id, origin: Origin, destination: string): Option<Error> {
    if h !in s.hosts then Some(NotFound)
    else if !Online(s.hosts[h], s.cfg, s.now) then Some(HostOffline)
    else if !HostAllows(s.hosts[h], Strip(destination)) then Some(StorageNotAllowed)
    else if origin.Scratch? then None
    else if origin.FromTemplate? then
      if origin.home.None? then Some(NotFound)
      else if !Shares(s.hosts, h, origin.home.value) then Some(TemplateUnreachable)
      else None
    else if origin.source !in s.vms then Some(NotFound)
    else
      var source := s.vms[origin.source];
      if source.host != h then Some(CrossHostClone)
      else if source.state != "Off" then Some(SourceNotOff)
      else if source.guid.None? then Some(VmNotReady)
      else None
  }

  function Placeholder(h: Id, host: Host, columns: Columns): Vm {
    Vm(None, h, host.cluster, None, {}, "Unknown", columns, None)
  }

  /** Insert a placeholder row, lock it, queue its task. When the broker refuses the request
      the rows are rolled back and the lock is left to its TTL. */
  function InsertSpec(s: State, h: Id, kind: Kind, columns: Columns, published: bool): Reply
    requires h in s.hosts
  {
    var v, t := s.nextId, s.nextId + 1;
    var locks := if LockLive(s.locks, v, s.now) then s.locks else Acquired(s.locks, v, t, kind, s.cfg, s.now);
    if !published then Reply(s.(nextId := t + 1, locks := locks), Err(PublishFailed))
    else
      Reply(s.(nextId := t + 2,
               vms := s.vms[v := Placeholder(h, s.hosts[h], columns)],
               tasks := s.tasks[t := NewTask(kind, OnVm, v, h, s.now)],
               events := s.events[t + 1 := NewEvent(s.now, OfTask(kind), v, Some(h), s.hosts[h].cluster, Some(t))],
               locks := locks),
            Ok(t))
  }

  function ProvisionSpec(s: State, h: Id, origin: Origin, destination: string, columns: Columns, published: bool): Reply {
    var refusal := ProvisionRefusal(s, h, origin, destination);
    if refusal.Some? then Reply(s, Err(refusal.value))
    else InsertSpec(s, h, ProvisionKind(origin), columns, published)
  }

  method CheckProvision(db: Database, ghost cache: Cache, cfg: Settings, now: Time, h: Id, origin: Origin, destination: string)
    returns (refusal: Option<Error>)
    ensures refusal == ProvisionRefusal(Snap(db, cache, cfg, now), h, origin, destination)
  {
    if h !in db.hosts { return Some(NotFound); }
    if !Online(db.hosts[h], cfg, now) { return Some(HostOffline); }
    if !HostAllows(db.hosts[h], Strip(destination)) { return Some(StorageNotAllowed); }
    if origin.FromTemplate? {
      if origin.home == None { return Some(NotFound); }
      if !Shares(db.hosts, h, origin.home.value) { return Some(TemplateUnreachable); }
    } else if origin.FromVm? {
      if origin.source !in db.vms { return Some(NotFound); }
      var source := db.vms[origin.source];
      if source.host != h { return Some(CrossHostClone); }
      if source.state != "Off" { return Some(SourceNotOff); }
      if source.guid == None { return Some(VmNotReady); }
    }
    return None;
  }

  method InsertRows(db: Database, cache: Cache, cfg: Settings, now: Time, h: Id, kind: Kind, columns: Columns, published: bool)
    returns (result: Result<Id, Error>)
    requires h in db.hosts
    modifies db`nextId, db`vms, db`tasks, db`events, cache`locks
    ensures var v, t := old(db.nextId), old(db.nextId) + 1;
      && cache.locks == (if LockLive(old(cache.locks), v, now) then old(cache.locks)
                         else Acquired(old(cache.locks), v, t, kind, cfg, now))
      && result == (if published then Ok(t) else Err(PublishFailed))
      && db.nextId == (if published then t + 2 else t + 1)
      && db.vms == (if published then old(db.vms)[v := Placeholder(h, db.hosts[h], columns)] else old(db.vms))
      && db.tasks == (if published then old(db.tasks)[t := NewTask(kind, OnVm, v, h, now)] else old(db.tasks))
      && db.events == (if published then old(db.events)[t + 1 :=
                         NewEvent(now, OfTask(kind), v, Some(h), db.hosts[h].cluster, Some(t))] else old(db.events))
  {
    var v := db.NewId();
    var t := db.NewId();
    var _ := AcquireVmLock(cache, v, t, kind, cfg, now);
    if published {
      db.vms := db.vms[v := Placeholder(h, db.hosts[h], columns)];
      db.tasks := db.tasks[t := NewTask(kind, OnVm, v, h, now)];
      Record(db, now, OfTask(kind), v, Some(h), db.hosts[h].cluster, Some(t));
      result := Ok(t);
    } else {
      result := Err(PublishFailed);
    }
  }

  method Insert(db: Database, cache: Cache, cfg: Settings, now: Time, h: Id, kind: Kind, columns: Columns, published: bool)
    returns (result: Result<Id, Error>)
    requires h in db.hosts
    modifies db`nextId, db`vms, db`tasks, db`events, cache`locks
    ensures Reply(Snap(db, cache, cfg, now), result) == InsertSpec(old(Snap(db, cache, cfg, now)), h, kind, columns, published)
  {
    result := InsertRows(db, cache, cfg, now, h, kind, columns, published);
  }

  method Provision(db: Database, cache: Cache, cfg: Settings, now: Time, h: Id, origin: Origin, destination: string,
                   columns: Columns, published: bool)
    returns (result: Result<Id, Error>)
    modifies db`nextId, db`vms, db`tasks, db`events, cache`locks
    ensures Reply(Snap(db, cache, cfg, now), result)
         == ProvisionSpec(old(Snap(db, cache, cfg, now)), h, origin, destination, columns, published)
  {
    var refusal := CheckProvision(db, cache, cfg, now, h, origin, destination);
    if refusal.Some? {
      result := Err(refusal.value);
    } else {
      result := Insert(db, cache, cfg, now, h, ProvisionKind(origin), columns, published);
    }
  }

  // ---- forget ----------------------------------------------------------------------------------

  /** Drop a row without asking the agent; refused while the agent would report it again. */
  function ForgetSpec(s: State, v: Id): Reply {
    if v !in s.vms then Reply(s, Err(NotFound))
    else
      var vm := s.vms[v];
      if vm.host in s.hosts && vm.guid.Some? && Online(s.hosts[vm.host], s.cfg, s.now) then Reply(s, Err(HostOnline))
      else
        Reply(s.(nextId := s.nextId + 1,
                 events := s.events[s.nextId := NewEvent(s.now, VmForget, v, Some(vm.host), vm.cluster, None)],
                 locks := s.locks - {v},
                 overlay := s.overlay - {v},
                 vms := s.vms - {v}),
              Ok(v))
  }

  method RemoveVmFromInventory(db: Database, cache: Cache, cfg: Settings, now: Time, v: Id)
    returns (result: Result<Id, Error>)
    modifies db, cache
    ensures Reply(Snap(db, cache, cfg, now), result) == ForgetSpec(old(Snap(db, cache, cfg, now)), v)
  {
    if v !in db.vms { return Err(NotFound); }
    var vm := db.vms[v];
    if vm.host in db.hosts && vm.guid != None && Online(db.hosts[vm.host], cfg, now) {
      return Err(HostOnline);
    }
    Record(db, now, VmForget, v, Some(vm.host), vm.cluster, None);
    ForceReleaseVmLock(cache, v);
    ClearVmState(cache, v);
    db.vms := db.vms - {v};
    return Ok(v);
  }
}
