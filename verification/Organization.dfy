/** Clusters, hosts and folders (app/services/organization.py, with the host-removal route). */
module Organization {
  import opened Wrappers
  import opened Model
  import opened Audit
  import opened Vms

  // ---- what the foreign keys and bulk UPDATEs do to the rows ----------------------------

  /** ON DELETE SET NULL of vms.folder_id. */
  function Detached(vms: map<Id, Vm>, gone: set<Id>): map<Id, Vm> {
    map v | v in vms :: if vms[v].folder.Some? && vms[v].folder.value in gone then vms[v].(folder := None) else vms[v]
  }

  function FoldersOfHost(folders: map<Id, Folder>, h: Id): set<Id> {
    set f | f in folders && folders[f].host == Some(h)
  }

  function FoldersOfCluster(folders: map<Id, Folder>, c: Id): set<Id> {
    set f | f in folders && folders[f].cluster == Some(c)
  }

  function HostedOn(vms: map<Id, Vm>, h: Id): set<Id> {
    set v | v in vms && vms[v].host == h
  }

  function TasksOf(tasks: map<Id, Task>, h: Id): set<Id> {
    set t | t in tasks && tasks[t].host == h
  }

  function OpenTasksOf(tasks: map<Id, Task>, h: Id): set<Id> {
    set t | t in tasks && tasks[t].host == h && !Terminal(tasks[t].status)
  }

  /** The VMs of a host that changes cluster: new cluster, no folder. */
  function Rehomed(vms: map<Id, Vm>, h: Id, cluster: Option<Id>): map<Id, Vm> {
    map v | v in vms :: if vms[v].host == h then vms[v].(cluster := cluster, folder := None) else vms[v]
  }

  function Unclustered(vms: map<Id, Vm>, c: Id): map<Id, Vm> {
    map v | v in vms :: if vms[v].cluster == Some(c) then vms[v].(cluster := None) else vms[v]
  }

  // ---- clusters -----------------------------------------------------------------------------

  function CreateClusterSpec(s: State, hypervisor: string): Reply {
    Reply(s.(nextId := s.nextId + 1, clusters := s.clusters[s.nextId := hypervisor]), Ok(s.nextId))
  }

  method CreateCluster(db: Database, ghost cache: Cache, ghost cfg: Settings, ghost now: Time, hypervisor: string)
    returns (result: Result<Id, Error>)
    modifies db`nextId, db`clusters
    ensures Reply(Snap(db, cache, cfg, now), result) == CreateClusterSpec(old(Snap(db, cache, cfg, now)), hypervisor)
  {
    var c := db.NewId();
    db.clusters := db.clusters[c := hypervisor];
    result := Ok(c);
  }

  /** Only an empty cluster goes; its folders go with it. */
  function DeleteClusterSpec(s: State, c: Id): Reply {
    if c !in s.clusters then Reply(s, Err(NotFound))
    else if exists h :: h in s.hosts && s.hosts[h].cluster == Some(c) then Reply(s, Err(Invalid))
    else
      var gone := FoldersOfCluster(s.folders, c);
      Reply(s.(clusters := s.clusters - {c}, folders := s.folders - gone,
               vms := Unclustered(Detached(s.vms, gone), c)), Ok(c))
  }

  method DeleteCluster(db: Database, ghost cache: Cache, ghost cfg: Settings, ghost now: Time, c: Id)
    returns (result: Result<Id, Error>)
    modifies db`clusters, db`folders, db`vms
    ensures Reply(Snap(db, cache, cfg, now), result) == DeleteClusterSpec(old(Snap(db, cache, cfg, now)), c)
  {
    if c !in db.clusters { return Err(NotFound); }
    if exists h :: h in db.hosts && db.hosts[h].cluster == Some(c) { return Err(Invalid); }
    var gone := FoldersOfCluster(db.folders, c);
    db.clusters, db.folders := db.clusters - {c}, db.folders - gone;
    db.vms := Unclustered(Detached(db.vms, gone), c);
    return Ok(c);
  }

  // ---- hosts ----------------------------------------------------------------------------------

  function ClusterRefusal(clusters: map<Id, string>, cluster: Option<Id>, hypervisor: string): Option<Error> {
    if cluster.None? then None
    else if cluster.value !in clusters then Some(NotFound)
    else if clusters[cluster.value] != hypervisor then Some(Invalid)
    else None
  }

  function CreateHostSpec(s: State, cluster: Option<Id>, hypervisor: string): Reply {
    var refusal := ClusterRefusal(s.clusters, cluster, hypervisor);
    if refusal.Some? then Reply(s, Err(refusal.value))
    else Reply(s.(nextId := s.nextId + 1, hosts := s.hosts[s.nextId := Host(cluster, hypervisor, None, false, "")]),
               Ok(s.nextId))
  }

  method CreateHost(db: Database, ghost cache: Cache, ghost cfg: Settings, ghost now: Time,
                    cluster: Option<Id>, hypervisor: string)
    returns (result: Result<Id, Error>)
    modifies db`nextId, db`hosts
    ensures Reply(Snap(db, cache, cfg, now), result) == CreateHostSpec(old(Snap(db, cache, cfg, now)), cluster, hypervisor)
  {
    var refusal := ClusterRefusal(db.clusters, cluster, hypervisor);
    if refusal.Some? { return Err(refusal.value); }
    var h := db.NewId();
    db.hosts := db.hosts[h := Host(cluster, hypervisor, None, false, "")];
    return Ok(h);
  }

  /** A host's own report: agent heartbeat and hardware. Neither touches its cluster. */
  function ReportSpec(s: State, h: Id, hypervisor: Option<string>, seenAt: Option<Time>, clustered: bool, path: string): State {
    if h !in s.hosts then s
    else s.(hosts := s.hosts[h := s.hosts[h].(
              hypervisor := if hypervisor.Some? then hypervisor.value else s.hosts[h].hypervisor,
              lastSeen := if seenAt.Some? then seenAt else Some(s.now),
              reportsClustered := clustered,
              defaultVmPath := path)])
  }

  method ApplyHostReport(db: Database, ghost cache: Cache, ghost cfg: Settings, now: Time, h: Id,
                         hypervisor: Option<string>, seenAt: Option<Time>, clustered: bool, path: string)
    modifies db`hosts
    ensures Snap(db, cache, cfg, now) == ReportSpec(old(Snap(db, cache, cfg, now)), h, hypervisor, seenAt, clustered, path)
  {
    if h in db.hosts {
      var host := db.hosts[h].(lastSeen := if seenAt.Some? then seenAt else Some(now),
                               reportsClustered := clustered, defaultVmPath := path);
      if hypervisor.Some? {
        host := host.(hypervisor := hypervisor.value);
      }
      db.hosts := db.hosts[h := host];
    }
  }

  function MovedVms(s: State, h: Id, cluster: Option<Id>): map<Id, Vm> {
    Detached(Rehomed(s.vms, h, cluster), FoldersOfHost(s.folders, h))
  }

  function MoveHostRefusal(s: State, h: Id, cluster: Option<Id>): Option<Error> {
    if h !in s.hosts then Some(NotFound) else ClusterRefusal(s.clusters, cluster, s.hosts[h].hypervisor)
  }

  /** Attach to a cluster or make standalone: VMs leave their folders, host folders are dropped.
      The unique indexes reject the move when a GUID would clash in its new scope. */
  function MoveHostSpec(s: State, h: Id, cluster: Option<Id>): Reply {
    var refusal := MoveHostRefusal(s, h, cluster);
    if refusal.Some? then Reply(s, Err(refusal.value))
    else if s.hosts[h].cluster == cluster then Reply(s, Ok(h))
    else
      var vms := MovedVms(s, h, cluster);
      if !AllUnique(vms) then Reply(s, Err(IntegrityError))
      else
        Reply(s.(nextId := s.nextId + 1,
                 hosts := s.hosts[h := s.hosts[h].(cluster := cluster)],
                 vms := vms,
                 folders := s.folders - FoldersOfHost(s.folders, h),
                 events := s.events[s.nextId := NewEvent(s.now, HostMoved, h, Some(h), cluster, None)]),
              Ok(h))
  }

  // GuidsUnique, as the database evaluates it.
  predicate AllUnique(vms: map<Id, Vm>)
    ensures AllUnique(vms) <==> GuidsUnique(vms)
  {
    forall a | a in vms :: forall b | b in vms ::
      a != b && vms[a].guid.Some? && vms[a].guid == vms[b].guid ==> !SameScope(vms[a], vms[b])
  }

  method MoveHost(db: Database, ghost cache: Cache, ghost cfg: Settings, now: Time, h: Id, cluster: Option<Id>)
    returns (result: Result<Id, Error>)
    modifies db`nextId, db`hosts, db`vms, db`folders, db`events
    ensures Reply(Snap(db, cache, cfg, now), result) == MoveHostSpec(old(Snap(db, cache, cfg, now)), h, cluster)
  {
    if h !in db.hosts { return Err(NotFound); }
    var refusal := ClusterRefusal(db.clusters, cluster, db.hosts[h].hypervisor);
    if refusal.Some? { return Err(refusal.value); }
    if db.hosts[h].cluster == cluster { return Ok(h); }
    var vms := Rehomed(db.vms, h, cluster);
    var gone := FoldersOfHost(db.folders, h);
    vms := Detached(vms, gone);
    if !AllUnique(vms) { return Err(IntegrityError); }
    db.hosts := db.hosts[h := db.hosts[h].(cluster := cluster)];
    db.vms, db.folders := vms, db.folders - gone;
    Record(db, now, HostMoved, h, Some(h), cluster, None);
    return Ok(h);
  }

  /** Remove a host: record it, close the audit events of its open tasks, cascade. */
  function RemoveHostSpec(s: State, h: Id): Reply {
    if h !in s.hosts then Reply(s, Err(NotFound))
    else
      var recorded := s.events[s.nextId := NewEvent(s.now, HostDeleted, h, Some(h), s.hosts[h].cluster, None)];
      var gone := FoldersOfHost(s.folders, h);
      Reply(s.(nextId := s.nextId + 1,
               events := Settle(recorded, OpenTasksOf(s.tasks, h), Failed, Some(HOST_REMOVED)),
               hosts := s.hosts - {h},
               vms := Detached(s.vms - HostedOn(s.vms, h), gone),
               tasks := s.tasks - TasksOf(s.tasks, h),
               folders := s.folders - gone),
            Ok(h))
  }

  const HOST_REMOVED := "Host removed before the task finished"

  method RemoveHost(db: Database, ghost cache: Cache, ghost cfg: Settings, now: Time, h: Id)
    returns (result: Result<Id, Error>)
    modifies db`nextId, db`hosts, db`vms, db`folders, db`events, db`tasks
    ensures Reply(Snap(db, cache, cfg, now), result) == RemoveHostSpec(old(Snap(db, cache, cfg, now)), h)
  {
    if h !in db.hosts { return Err(NotFound); }
    Record(db, now, HostDeleted, h, Some(h), db.hosts[h].cluster, None);
    db.events := Settle(db.events, OpenTasksOf(db.tasks, h), Failed, Some(HOST_REMOVED));
    var gone := FoldersOfHost(db.folders, h);
    db.hosts, db.tasks, db.folders := db.hosts - {h}, db.tasks - TasksOf(db.tasks, h), db.folders - gone;
    db.vms := Detached(db.vms - HostedOn(db.vms, h), gone);
    return Ok(h);
  }

  // ---- folders ----------------------------------------------------------------------------------

  function FolderRefusal(s: State, cluster: Option<Id>, host: Option<Id>): Option<Error> {
    if cluster.Some? == host.Some? then Some(Invalid)
    else if cluster.Some? then (if cluster.value in s.clusters then None else Some(NotFound))
    else if host.value !in s.hosts then Some(NotFound)
    else if s.hosts[host.value].cluster.Some? then Some(Invalid)
    else None
  }

  function CreateFolderSpec(s: State, cluster: Option<Id>, host: Option<Id>): Reply {
    var refusal := FolderRefusal(s, cluster, host);
    if refusal.Some? then Reply(s, Err(refusal.value))
    else Reply(s.(nextId := s.nextId + 1, folders := s.folders[s.nextId := Folder(cluster, host)]), Ok(s.nextId))
  }

  method CreateFolder(db: Database, ghost cache: Cache, ghost cfg: Settings, ghost now: Time,
                      cluster: Option<Id>, host: Option<Id>)
    returns (result: Result<Id, Error>)
    modifies db`nextId, db`folders
    ensures Reply(Snap(db, cache, cfg, now), result) == CreateFolderSpec(old(Snap(db, cache, cfg, now)), cluster, host)
  {
    if cluster.Some? == host.Some? { return Err(Invalid); }
    if cluster.Some? {
      if cluster.value !in db.clusters { return Err(NotFound); }
    } else {
      if host.value !in db.hosts { return Err(NotFound); }
      if db.hosts[host.value].cluster.Some? { return Err(Invalid); }
    }
    var f := db.NewId();
    db.folders := db.folders[f := Folder(cluster, host)];
    return Ok(f);
  }

  function DeleteFolderSpec(s: State, f: Id): Reply {
    if f !in s.folders then Reply(s, Err(NotFound))
    else Reply(s.(vms := Detached(s.vms, {f}), folders := s.folders - {f}), Ok(f))
  }

  method DeleteFolder(db: Database, ghost cache: Cache, ghost cfg: Settings, ghost now: Time, f: Id)
    returns (result: Result<Id, Error>)
    modifies db`vms, db`folders
    ensures Reply(Snap(db, cache, cfg, now), result) == DeleteFolderSpec(old(Snap(db, cache, cfg, now)), f)
  {
    if f !in db.folders { return Err(NotFound); }
    db.vms := Detached(db.vms, {f});
    db.folders := db.folders - {f};
    return Ok(f);
  }

  function PlaceRefusal(s: State, v: Id, folder: Option<Id>): Option<Error> {
    if v !in s.vms then Some(NotFound)
    else if folder.None? then None
    else if folder.value !in s.folders then Some(NotFound)
    else if s.vms[v].host !in s.hosts then Some(IntegrityError)
    else
      var f, h := s.folders[folder.value], s.vms[v].host;
      if f.cluster.Some? then (if s.hosts[h].cluster != f.cluster then Some(Invalid) else None)
      else if s.hosts[h].cluster.Some? || f.host != Some(h) then Some(Invalid)
      else None
  }

  function PlaceVmSpec(s: State, v: Id, folder: Option<Id>): Reply {
    var refusal := PlaceRefusal(s, v, folder);
    if refusal.Some? then Reply(s, Err(refusal.value))
    else Reply(s.(vms := s.vms[v := s.vms[v].(folder := folder)]), Ok(v))
  }

  method MoveVmToFolder(db: Database, ghost cache: Cache, ghost cfg: Settings, ghost now: Time, v: Id, folder: Option<Id>)
    returns (result: Result<Id, Error>)
    modifies db`vms
    ensures Reply(Snap(db, cache, cfg, now), result) == PlaceVmSpec(old(Snap(db, cache, cfg, now)), v, folder)
  {
    if v !in db.vms { return Err(NotFound); }
    if folder.Some? {
      if folder.value !in db.folders { return Err(NotFound); }
      var f, h := db.folders[folder.value], db.vms[v].host;
      if h !in db.hosts { return Err(IntegrityError); }
      if f.cluster.Some? {
        if db.hosts[h].cluster != f.cluster { return Err(Invalid); }
      } else if db.hosts[h].cluster.Some? || f.host != Some(h) {
        return Err(Invalid);
      }
    }
    db.vms := db.vms[v := db.vms[v].(folder := folder)];
    return Ok(v);
  }
}
