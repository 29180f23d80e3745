/** Which requests on folders and hosts are admitted: exactly those the tables can bear. */
module PlaceLaws {
  import opened Wrappers
  import opened Model
  import opened Vms
  import opened Organization
  import opened Invariants
  import Audit

  /** A VM may be put in an existing folder exactly when it stays reachable there, and then it is
      there; a refused request leaves it where it was. */
  lemma PlaceVmExactly(s: State, v: Id, f: Id)
    requires Sound(s) && v in s.vms && f in s.folders
    ensures var after := s.(vms := s.vms[v := s.vms[v].(folder := Some(f))]);
      && (PlaceVmSpec(s, v, Some(f)).result.Ok? <==> FoldersReachable(after))
      && PlaceVmSpec(s, v, Some(f)).state == if FoldersReachable(after) then after else s
  {
    assert Holds(Places, s);
    var after := s.(vms := s.vms[v := s.vms[v].(folder := Some(f))]);
    if FoldersReachable(after) {
      assert after.vms[v].folder == Some(f);
    }
  }

  /** Out of its folder a VM may always be taken. */
  lemma TakingOutLeaves(s: State, v: Id)
    requires v in s.vms
    ensures PlaceVmSpec(s, v, None) == Reply(s.(vms := s.vms[v := s.vms[v].(folder := None)]), Ok(v))
  {
  }

  /** A folder may be created exactly when it would belong to one existing cluster or to one
      existing standalone host, and then there is one folder more. */
  lemma CreateFolderExactly(s: State, cluster: Option<Id>, host: Option<Id>)
    requires Sound(s) && s.nextId !in s.folders
    ensures var after := s.(folders := s.folders[s.nextId := Folder(cluster, host)]);
      && (CreateFolderSpec(s, cluster, host).result.Ok? <==> FoldersScoped(after))
      && CreateFolderSpec(s, cluster, host).state == if FoldersScoped(after) then after.(nextId := s.nextId + 1) else s
  {
    assert Holds(Places, s);
    var after := s.(folders := s.folders[s.nextId := Folder(cluster, host)]);
    if FoldersScoped(after) {
      assert after.folders[s.nextId] == Folder(cluster, host);
    }
  }

  /** A deleted folder is gone, its VMs are in no folder, and no other VM changes. */
  lemma DeletingAFolderLeaves(s: State, f: Id)
    requires f in s.folders
    ensures DeleteFolderSpec(s, f).result == Ok(f)
    ensures DeleteFolderSpec(s, f).state
      == s.(folders := map g | g in s.folders && g != f :: s.folders[g],
            vms := map v | v in s.vms :: if s.vms[v].folder == Some(f) then s.vms[v].(folder := None) else s.vms[v])
  {
    assert s.folders - {f} == map g | g in s.folders && g != f :: s.folders[g];
  }

  /** A new cluster is there with its hypervisor; nothing else changes. */
  lemma CreateClusterLeaves(s: State, hypervisor: string)
    ensures CreateClusterSpec(s, hypervisor)
      == Reply(s.(nextId := s.nextId + 1, clusters := s.clusters[s.nextId := hypervisor]), Ok(s.nextId))
  {
  }

  /** A host of this hypervisor fits this cluster, or stands alone. */
  predicate Fits(clusters: map<Id, string>, cluster: Option<Id>, hypervisor: string) {
    cluster.Some? ==> cluster.value in clusters && clusters[cluster.value] == hypervisor
  }

  /** A host may be created exactly when it fits; nothing has been heard of it yet. */
  lemma CreateHostExactly(s: State, cluster: Option<Id>, hypervisor: string)
    ensures CreateHostSpec(s, cluster, hypervisor).result.Ok? <==> Fits(s.clusters, cluster, hypervisor)
    ensures Fits(s.clusters, cluster, hypervisor) ==>
      CreateHostSpec(s, cluster, hypervisor).state
      == s.(nextId := s.nextId + 1, hosts := s.hosts[s.nextId := Host(cluster, hypervisor, None, false, "")])
    ensures !Fits(s.clusters, cluster, hypervisor) ==> CreateHostSpec(s, cluster, hypervisor).state == s
  {
  }

  /** A report leaves the host in its cluster, whatever it says. */
  lemma ReportLeaves(s: State, h: Id, hypervisor: Option<string>, seenAt: Option<Time>, clustered: bool, path: string)
    requires h in s.hosts
    ensures var seen := if seenAt.Some? then seenAt.value else s.now;
      ReportSpec(s, h, hypervisor, seenAt, clustered, path)
      == s.(hosts := s.hosts[h := Host(s.hosts[h].cluster,
                                       if hypervisor.Some? then hypervisor.value else s.hosts[h].hypervisor,
                                       Some(seen), clustered, path)])
  {
  }

  /** Would a VM of host `h` meet its own GUID in the cluster? */
  ghost predicate MeetsItself(s: State, h: Id, cluster: Option<Id>) {
    cluster.Some? && exists a, b :: a in s.vms && b in s.vms && s.vms[a].host == h && Meets(s.vms[a], s.vms[b], h, cluster)
  }

  predicate Meets(a: Vm, b: Vm, h: Id, cluster: Option<Id>) {
    b.host != h && b.cluster == cluster && a.guid.Some? && a.guid == b.guid
  }

  lemma MovedRow(s: State, h: Id, cluster: Option<Id>, v: Id)
    requires v in s.vms
    ensures var row := MovedVms(s, h, cluster)[v];
      row.guid == s.vms[v].guid && row.host == s.vms[v].host
      && row.cluster == if s.vms[v].host == h then cluster else s.vms[v].cluster
  {
  }

  lemma MovedPair(s: State, h: Id, cluster: Option<Id>, a: Id, b: Id)
    requires ClusterSync(s) && GuidsUnique(s.vms) && h in s.hosts && a in s.vms && b in s.vms && a != b
    requires s.vms[a].guid.Some? && s.vms[a].guid == s.vms[b].guid
    requires SameScope(MovedVms(s, h, cluster)[a], MovedVms(s, h, cluster)[b])
    ensures MeetsItself(s, h, cluster)
  {
    MovedRow(s, h, cluster, a);
    MovedRow(s, h, cluster, b);
    assert !SameScope(s.vms[a], s.vms[b]);
    assert s.vms[a].host == h ==> Meets(s.vms[a], s.vms[b], h, cluster);
    assert s.vms[b].host == h ==> Meets(s.vms[b], s.vms[a], h, cluster);
  }

  lemma ClashIsMeeting(s: State, h: Id, cluster: Option<Id>)
    requires ClusterSync(s) && GuidsUnique(s.vms) && h in s.hosts
    ensures GuidsUnique(MovedVms(s, h, cluster)) <==> !MeetsItself(s, h, cluster)
  {
    var after := MovedVms(s, h, cluster);
    if MeetsItself(s, h, cluster) {
      var a, b :| a in s.vms && b in s.vms && s.vms[a].host == h && Meets(s.vms[a], s.vms[b], h, cluster);
      MovedRow(s, h, cluster, a);
      MovedRow(s, h, cluster, b);
      assert a in after && b in after && SameScope(after[a], after[b]);
    } else {
      forall a, b | a in after && b in after && a != b && after[a].guid.Some? && after[a].guid == after[b].guid
        ensures !SameScope(after[a], after[b])
      {
        MovedRow(s, h, cluster, a);
        MovedRow(s, h, cluster, b);
        if SameScope(after[a], after[b]) { MovedPair(s, h, cluster, a, b); }
      }
    }
  }

  /** The move is to another cluster, or to none, and the host fits there. */
  predicate MayMove(s: State, h: Id, cluster: Option<Id>) {
    h in s.hosts && s.hosts[h].cluster != cluster && Fits(s.clusters, cluster, s.hosts[h].hypervisor)
  }

  lemma MoveResult(s: State, h: Id, cluster: Option<Id>)
    requires MayMove(s, h, cluster)
    ensures MoveHostRefusal(s, h, cluster).None?
    ensures MoveHostSpec(s, h, cluster).result
      == if GuidsUnique(MovedVms(s, h, cluster)) then Ok(h) else Err(IntegrityError)
  {
  }

  /** A host that may change cluster does so unless one of its VMs is already known there under
      the same GUID; leaving a cluster is never refused for that. */
  lemma MoveHostExactly(s: State, h: Id, cluster: Option<Id>)
    requires Sound(s) && MayMove(s, h, cluster)
    ensures MoveHostSpec(s, h, cluster).result == if MeetsItself(s, h, cluster) then Err(IntegrityError) else Ok(h)
  {
    MoveResult(s, h, cluster);
    assert Holds(Places, s) && Holds(Guids, s);
    ClashIsMeeting(s, h, cluster);
  }

  /** Any other request to move a host changes nothing. */
  lemma NoMoveOtherwise(s: State, h: Id, cluster: Option<Id>)
    requires !MayMove(s, h, cluster)
    ensures MoveHostSpec(s, h, cluster).state == s
    ensures MoveHostSpec(s, h, cluster).result.Ok? <==> h in s.hosts && s.hosts[h].cluster == cluster && Fits(s.clusters, cluster, s.hosts[h].hypervisor)
  {
  }

  // ---- what a change of places does to the VMs ------------------------------------------------

  // A VM in one of this host's folders is on this host.
  lemma HostFoldersAreItsOwn(s: State, h: Id, v: Id)
    requires PlacesSound(s) && v in s.vms && s.vms[v].folder.Some? && s.vms[v].folder.value in FoldersOfHost(s.folders, h)
    ensures s.vms[v].host == h
  {
  }

  lemma MovedVmsExactly(s: State, h: Id, cluster: Option<Id>, v: Id)
    requires PlacesSound(s) && v in s.vms
    ensures MovedVms(s, h, cluster)[v]
      == if s.vms[v].host == h then s.vms[v].(cluster := cluster, folder := None) else s.vms[v]
  {
    if s.vms[v].folder.Some? && s.vms[v].folder.value in FoldersOfHost(s.folders, h) {
      HostFoldersAreItsOwn(s, h, v);
    }
  }

  /** Moving a host moves its VMs out of their folders and into the cluster with it, and touches
      no other VM, although it drops the host's folders wherever they are used. */
  lemma MovingAHostMovesItsVms(s: State, h: Id, cluster: Option<Id>, v: Id)
    requires Sound(s) && MayMove(s, h, cluster) && v in s.vms && !MeetsItself(s, h, cluster)
    ensures var vms := MoveHostSpec(s, h, cluster).state.vms;
      v in vms && vms[v] == if s.vms[v].host == h then s.vms[v].(cluster := cluster, folder := None) else s.vms[v]
  {
    assert Holds(Places, s) && Holds(Guids, s);
    ClashIsMeeting(s, h, cluster);
    MovedVmsExactly(s, h, cluster, v);
    MoveTakes(s, h, cluster);
  }

  // An entry of the audit trail that no task has to settle.
  function DoneAt(now: Time, action: EventAction, h: Id, cluster: Option<Id>): Event {
    Event(now, action, h, Some(h), cluster, None, Settled(Succeeded), None)
  }

  lemma MoveTakes(s: State, h: Id, cluster: Option<Id>)
    requires MayMove(s, h, cluster) && GuidsUnique(MovedVms(s, h, cluster))
    ensures MoveHostSpec(s, h, cluster).state
      == s.(nextId := s.nextId + 1, vms := MovedVms(s, h, cluster),
            hosts := s.hosts[h := s.hosts[h].(cluster := cluster)],
            folders := map f | f in s.folders && s.folders[f].host != Some(h) :: s.folders[f],
            events := s.events[s.nextId := DoneAt(s.now, HostMoved, h, cluster)])
  {
    assert s.folders - FoldersOfHost(s.folders, h) == map f | f in s.folders && s.folders[f].host != Some(h) :: s.folders[f];
  }

  /** Besides, the host is in its new cluster, its own folders are gone and the move is on record. */
  lemma MovingAHostLeaves(s: State, h: Id, cluster: Option<Id>)
    requires Sound(s) && MayMove(s, h, cluster) && !MeetsItself(s, h, cluster)
    ensures var s' := MoveHostSpec(s, h, cluster).state;
      s' == s.(nextId := s.nextId + 1, vms := s'.vms,
               hosts := s.hosts[h := s.hosts[h].(cluster := cluster)],
               folders := map f | f in s.folders && s.folders[f].host != Some(h) :: s.folders[f],
               events := s.events[s.nextId := DoneAt(s.now, HostMoved, h, cluster)])
  {
    assert Holds(Places, s) && Holds(Guids, s);
    ClashIsMeeting(s, h, cluster);
    MoveTakes(s, h, cluster);
  }

  /** Removing a host removes its VMs and leaves every other VM exactly as it was. */
  lemma RemovingAHostRemovesItsVms(s: State, h: Id)
    requires Sound(s) && h in s.hosts
    ensures RemoveHostSpec(s, h).state.vms == map v | v in s.vms && s.vms[v].host != h :: s.vms[v]
  {
    assert Holds(Places, s);
    var after := RemoveHostSpec(s, h).state.vms;
    assert after == Detached(s.vms - HostedOn(s.vms, h), FoldersOfHost(s.folders, h));
    forall v | v in after ensures v in s.vms && s.vms[v].host != h && after[v] == s.vms[v] {
      if s.vms[v].folder.Some? && s.vms[v].folder.value in FoldersOfHost(s.folders, h) {
        HostFoldersAreItsOwn(s, h, v);
      }
    }
  }

  // What becomes of an event when host `h` goes: those still waiting for one of its tasks fail.
  function EventAfterRemoval(e: Event, tasks: map<Id, Task>, h: Id): Event {
    if e.outcome.Pending? && e.task.Some? && e.task.value in tasks && tasks[e.task.value].host == h
       && (tasks[e.task.value].status.Queued? || tasks[e.task.value].status.Running?)
    then e.(outcome := Settled(Failed), error := Some("Host removed before the task finished"))
    else e
  }

  /** With the host go its tasks and folders, and the trail says what became of them. */
  lemma RemovingAHostLeaves(s: State, h: Id)
    requires h in s.hosts && s.nextId !in s.events
    ensures var s' := RemoveHostSpec(s, h).state;
      && s'.hosts == (map k | k in s.hosts && k != h :: s.hosts[k])
      && s'.folders == (map f | f in s.folders && s.folders[f].host != Some(h) :: s.folders[f])
      && s'.tasks == (map t | t in s.tasks && s.tasks[t].host != h :: s.tasks[t])
      && s'.events == (map e | e in s.events :: EventAfterRemoval(s.events[e], s.tasks, h))[s.nextId := DoneAt(s.now, HostDeleted, h, s.hosts[h].cluster)]
  {
    var s' := RemoveHostSpec(s, h).state;
    RemovalSettles(s, h, DoneAt(s.now, HostDeleted, h, s.hosts[h].cluster));
    assert s'.tasks == s.tasks - TasksOf(s.tasks, h) && s'.folders == s.folders - FoldersOfHost(s.folders, h);
  }

  lemma RemovalSettles(s: State, h: Id, e: Event)
    requires !e.outcome.Pending? && s.nextId !in s.events
    ensures Audit.Settle(s.events[s.nextId := e], OpenTasksOf(s.tasks, h), Failed, Some(HOST_REMOVED))
      == (map e | e in s.events :: EventAfterRemoval(s.events[e], s.tasks, h))[s.nextId := e]
  {
  }

  /** A cluster may be deleted exactly when it exists and has no host. */
  lemma DeleteClusterExactly(s: State, c: Id)
    ensures DeleteClusterSpec(s, c).result.Ok?
      <==> c in s.clusters && forall h :: h in s.hosts ==> s.hosts[h].cluster != Some(c)
    ensures DeleteClusterSpec(s, c).result.Err? ==> DeleteClusterSpec(s, c).state == s
  {
  }

  /** Its folders go with it. */
  lemma DeletingAClusterLeaves(s: State, c: Id)
    requires DeleteClusterSpec(s, c).result.Ok?
    ensures var s' := DeleteClusterSpec(s, c).state;
      s' == s.(clusters := map d | d in s.clusters && d != c :: s.clusters[d],
               folders := map f | f in s.folders && s.folders[f].cluster != Some(c) :: s.folders[f],
               vms := s'.vms)
  {
    assert s.clusters - {c} == map d | d in s.clusters && d != c :: s.clusters[d];
    assert s.folders - FoldersOfCluster(s.folders, c) == map f | f in s.folders && s.folders[f].cluster != Some(c) :: s.folders[f];
  }

  /** Deleting a cluster, which must have no host, touches no VM at all. */
  lemma DeletingAClusterTouchesNoVm(s: State, c: Id)
    requires Sound(s)
    ensures DeleteClusterSpec(s, c).state.vms == s.vms
  {
    assert Holds(Places, s);
    if DeleteClusterSpec(s, c).result.Ok? {
      var after := DeleteClusterSpec(s, c).state.vms;
      assert after == Unclustered(Detached(s.vms, FoldersOfCluster(s.folders, c)), c);
      forall v | v in s.vms ensures v in after && after[v] == s.vms[v] {
        assert s.vms[v].cluster != Some(c);
      }
    }
  }
}
