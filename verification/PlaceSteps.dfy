/** Clusters, hosts and folders may come, go and move: the tables stay sound. */
module PlaceSteps {
  import opened Wrappers
  import opened Model
  import opened Audit
  import opened Organization
  import opened Invariants
  import opened RowSteps
  import opened LedgerSteps

  // ---- clusters, hosts, folders ----------------------------------------------------------------------------

  /** A row that may have lost its folder, and changed cluster with its host. */
  ghost predicate Reshelf(a: Vm, b: Vm) {
    && b.host == a.host && b.guid == a.guid && b.tags == a.tags
    && (b.folder.None? || b.folder == a.folder)
  }

  ghost predicate Reshelved(before: map<Id, Vm>, after: map<Id, Vm>) {
    forall v :: v in after ==> v in before && Reshelf(before[v], after[v])
  }

  ghost predicate SameClusters(before: map<Id, Vm>, after: map<Id, Vm>) {
    forall v :: v in after ==> v in before && after[v].cluster == before[v].cluster
  }

  lemma ReshelvedTags(s: State, s': State)
    requires Reshelved(s.vms, s'.vms) && s'.tags == s.tags && s'.categories == s.categories
    ensures SameTags(s, s')
  {
    forall v | v in s'.vms ensures s'.vms[v].tags == s.vms[v].tags { assert Reshelf(s.vms[v], s'.vms[v]); }
  }

  lemma ReshelvedGuids(s: State, s': State)
    requires Sound(s) && Reshelved(s.vms, s'.vms) && SameClusters(s.vms, s'.vms)
    ensures Keeps(Guids, s')
  {
    assert Holds(Guids, s);
    var before, after := s.vms, s'.vms;
    forall a, b | a in after && b in after && a != b && after[a].guid.Some? && after[a].guid == after[b].guid
      ensures !SameScope(after[a], after[b])
    {
      assert Reshelf(before[a], after[a]) && Reshelf(before[b], after[b]);
      assert !SameScope(before[a], before[b]);
    }
    UniqueIsKept(s');
  }

  // Folders go, with their rows' references; nothing else moves.
  lemma FoldersGone(s: State, s': State, gone: set<Id>)
    requires PlacesSound(s) && Reshelved(s.vms, s'.vms) && SameClusters(s.vms, s'.vms)
    requires s'.folders == s.folders - gone
    requires forall v :: v in s'.vms && s'.vms[v].folder.Some? ==> s'.vms[v].folder.value !in gone
    requires forall h :: h in s'.hosts ==> h in s.hosts && s'.hosts[h] == s.hosts[h]
    requires forall h :: h in s'.hosts && s'.hosts[h].cluster.Some? ==> s'.hosts[h].cluster.value in s'.clusters
    requires forall v :: v in s'.vms ==> s'.vms[v].host in s'.hosts
    requires forall f :: f in s'.folders && s.folders[f].cluster.Some? ==> s.folders[f].cluster.value in s'.clusters
    requires forall f :: f in s'.folders && s.folders[f].host.Some? ==> s.folders[f].host.value in s'.hosts
    ensures Keeps(Places, s')
  {
    forall v | v in s'.vms ensures v in s.vms && Reshelf(s.vms[v], s'.vms[v]) {}
    assert FoldersScoped(s');
    assert FoldersReachable(s');
    assert PlacesSound(s');
  }

  lemma ClusterRows(vms: map<Id, Vm>, gone: set<Id>, c: Id)
    requires forall v :: v in vms ==> vms[v].cluster != Some(c)
    ensures var after := Unclustered(Detached(vms, gone), c);
      && after.Keys == vms.Keys && Reshelved(vms, after) && SameClusters(vms, after)
      && forall v :: v in after && after[v].folder.Some? ==> after[v].folder.value !in gone
  {
  }

  lemma EmptyCluster(s: State, c: Id)
    requires Sound(s) && !exists h :: h in s.hosts && s.hosts[h].cluster == Some(c)
    ensures forall v :: v in s.vms ==> s.vms[v].cluster != Some(c)
  {
    assert Holds(Places, s);
  }

  lemma ClusterDeleted(s: State, s': State, c: Id, gone: set<Id>)
    requires Sound(s) && gone == FoldersOfCluster(s.folders, c) && !exists h :: h in s.hosts && s.hosts[h].cluster == Some(c)
    requires s' == s.(clusters := s.clusters - {c}, folders := s.folders - gone, vms := Unclustered(Detached(s.vms, gone), c))
    ensures Sound(s')
  {
    EmptyCluster(s, c);
    ClusterRows(s.vms, gone, c);
    ClusterPlaces(s, s', c, gone);
    ReshelvedSound(s, s');
  }

  lemma ClusterPlaces(s: State, s': State, c: Id, gone: set<Id>)
    requires Sound(s) && gone == FoldersOfCluster(s.folders, c) && !exists h :: h in s.hosts && s.hosts[h].cluster == Some(c)
    requires s'.clusters == s.clusters - {c} && s'.folders == s.folders - gone && s'.hosts == s.hosts
    requires Reshelved(s.vms, s'.vms) && SameClusters(s.vms, s'.vms)
    requires forall v :: v in s'.vms && s'.vms[v].folder.Some? ==> s'.vms[v].folder.value !in gone
    ensures Keeps(Places, s')
  {
    assert Holds(Places, s);
    forall v | v in s'.vms ensures s'.vms[v].host in s'.hosts { assert Reshelf(s.vms[v], s'.vms[v]); }
    FoldersGone(s, s', gone);
  }

  // Rows lost their folders; places are known to be fine; the rest is as it was.
  lemma ReshelvedSound(s: State, s': State)
    requires Sound(s) && Keeps(Places, s') && Reshelved(s.vms, s'.vms) && SameClusters(s.vms, s'.vms)
    requires s' == s.(vms := s'.vms, folders := s'.folders, clusters := s'.clusters)
    requires s'.folders.Keys <= s.folders.Keys && s'.clusters.Keys <= s.clusters.Keys
    ensures Sound(s')
  {
    assert IdsGrow(s, s');
    IdsCarryOver(s, s');
    ReshelvedGuids(s, s');
    ReshelvedTags(s, s');
    LabelsCarryOver(s, s');
    PlainEventsKeepLedger(s, s');
    Assemble(s');
  }

  lemma DeleteClusterSound(s: State, c: Id)
    requires Sound(s)
    ensures Sound(DeleteClusterSpec(s, c).state)
  {
    if c in s.clusters && !exists h :: h in s.hosts && s.hosts[h].cluster == Some(c) {
      ClusterDeleted(s, DeleteClusterSpec(s, c).state, c, FoldersOfCluster(s.folders, c));
    }
  }

  /** What moving a host does, when it does anything. */
  ghost predicate Moves(s: State, s': State, h: Id, cluster: Option<Id>) {
    && h in s.hosts && (cluster.Some? ==> cluster.value in s.clusters)
    && s'.hosts == s.hosts[h := s.hosts[h].(cluster := cluster)] && s'.clusters == s.clusters
    && s'.folders == s.folders - FoldersOfHost(s.folders, h)
    && s'.vms.Keys == s.vms.Keys
    && (forall v :: v in s.vms ==>
          && Reshelf(s.vms[v], s'.vms[v])
          && s'.vms[v].cluster == (if s.vms[v].host == h then cluster else s.vms[v].cluster)
          && (s'.vms[v].folder.Some? ==> s.vms[v].host != h && s'.vms[v].folder.value !in FoldersOfHost(s.folders, h)))
    && GuidsUnique(s'.vms)
  }

  lemma MovedRows(s: State, h: Id, cluster: Option<Id>)
    ensures var after := MovedVms(s, h, cluster);
      && after.Keys == s.vms.Keys
      && (forall v :: v in s.vms ==>
            && Reshelf(s.vms[v], after[v])
            && after[v].cluster == (if s.vms[v].host == h then cluster else s.vms[v].cluster)
            && (after[v].folder.Some? ==> s.vms[v].host != h && after[v].folder.value !in FoldersOfHost(s.folders, h)))
  {
  }

  lemma MoveHostPlaces(s: State, s': State, h: Id, cluster: Option<Id>)
    requires Sound(s) && Moves(s, s', h, cluster)
    ensures Keeps(Places, s')
  {
    assert Holds(Places, s);
    forall v | v in s'.vms ensures v in s.vms && Reshelf(s.vms[v], s'.vms[v]) {}
    assert FoldersScoped(s');
    assert FoldersReachable(s');
    assert PlacesSound(s');
  }

  lemma HostMovedSound(s: State, s': State, h: Id, cluster: Option<Id>, e: Event)
    requires Sound(s) && Moves(s, s', h, cluster)
    requires s' == s.(nextId := s.nextId + 1, hosts := s'.hosts, vms := s'.vms, folders := s'.folders, events := s'.events)
    requires s'.events == s.events[s.nextId := e] && e.task.None? && e.outcome.Settled?
    ensures Sound(s')
  {
    MoveHostPlaces(s, s', h, cluster);
    UniqueIsKept(s');
    forall v | v in s'.vms ensures Reshelf(s.vms[v], s'.vms[v]) {}
    ReshelvedTags(s, s');
    LabelsCarryOver(s, s');
    assert IdsGrow(s, s');
    IdsCarryOver(s, s');
    PlainEventsKeepLedger(s, s');
    Assemble(s');
  }

  lemma MoveHostSound(s: State, h: Id, cluster: Option<Id>)
    requires Sound(s)
    ensures Sound(MoveHostSpec(s, h, cluster).state)
  {
    if MoveHostRefusal(s, h, cluster).None? && s.hosts[h].cluster != cluster && AllUnique(MovedVms(s, h, cluster)) {
      MovedRows(s, h, cluster);
      HostMovedSound(s, MoveHostSpec(s, h, cluster).state, h, cluster, NewEvent(s.now, HostMoved, h, Some(h), cluster, None));
    }
  }

  lemma RemoveHostLedger(s: State, h: Id)
    requires Sound(s) && h in s.hosts
    ensures Keeps(Records, RemoveHostSpec(s, h).state)
  {
    var recorded := s.events[s.nextId := NewEvent(s.now, HostDeleted, h, Some(h), s.hosts[h].cluster, None)];
    var s' := RemoveHostSpec(s, h).state;
    assert OnlyPlain(s.events, recorded);
    assert OpenTasksOf(s.tasks, h) == set t | t in TasksOf(s.tasks, h) && t in s.tasks && !Terminal(s.tasks[t].status);
    DroppingTasksKeepsLedger(s, s', TasksOf(s.tasks, h), OpenTasksOf(s.tasks, h), recorded, Some(HOST_REMOVED));
  }

  lemma RemoveHostSteps(s: State, h: Id)
    requires h in s.hosts
    ensures var s' := RemoveHostSpec(s, h).state;
      && IdsGrow(s, s') && Reshelved(s.vms, s'.vms) && SameClusters(s.vms, s'.vms)
      && s'.tags == s.tags && s'.categories == s.categories && s'.clusters == s.clusters
      && s'.hosts == s.hosts - {h} && s'.folders == s.folders - FoldersOfHost(s.folders, h)
      && (forall v :: v in s'.vms ==> s'.vms[v].host != h)
      && (forall v :: v in s'.vms && s'.vms[v].folder.Some? ==> s'.vms[v].folder.value !in FoldersOfHost(s.folders, h))
  {
    var recorded := s.events[s.nextId := NewEvent(s.now, HostDeleted, h, Some(h), s.hosts[h].cluster, None)];
    SettledKeys(recorded, OpenTasksOf(s.tasks, h), Failed, Some(HOST_REMOVED));
  }

  lemma RemoveHostPlaces(s: State, h: Id)
    requires Sound(s) && h in s.hosts
    ensures Keeps(Places, RemoveHostSpec(s, h).state)
  {
    assert Holds(Places, s);
    var s' := RemoveHostSpec(s, h).state;
    RemoveHostSteps(s, h);
    forall v | v in s'.vms ensures Reshelf(s.vms[v], s'.vms[v]) {}
    FoldersGone(s, s', FoldersOfHost(s.folders, h));
  }

  lemma RemoveHostSound(s: State, h: Id)
    requires Sound(s)
    ensures Sound(RemoveHostSpec(s, h).state)
  {
    var s' := RemoveHostSpec(s, h).state;
    if h in s.hosts {
      RemoveHostSteps(s, h);
      RemoveHostPlaces(s, h);
      RemoveHostLedger(s, h);
      IdsCarryOver(s, s');
      ReshelvedGuids(s, s');
      ReshelvedTags(s, s');
      LabelsCarryOver(s, s');
      Assemble(s');
    }
  }

  lemma CreateFolderSound(s: State, cluster: Option<Id>, owner: Option<Id>)
    requires Sound(s)
    ensures Sound(CreateFolderSpec(s, cluster, owner).state)
  {
    var s' := CreateFolderSpec(s, cluster, owner).state;
    assert IdsGrow(s, s');
    IdsCarryOver(s, s');
    CreateFolderPlaces(s, cluster, owner);
    KeptGuids(s, s');
    LabelsCarryOver(s, s');
    PlainEventsKeepLedger(s, s');
    Assemble(s');
  }

  lemma CreateFolderPlaces(s: State, cluster: Option<Id>, owner: Option<Id>)
    requires Sound(s)
    ensures Keeps(Places, CreateFolderSpec(s, cluster, owner).state)
  {
    assert Holds(Ids, s) && Holds(Places, s);
    assert PlacesSound(CreateFolderSpec(s, cluster, owner).state);
  }

  lemma FolderRows(vms: map<Id, Vm>, gone: set<Id>)
    ensures var after := Detached(vms, gone);
      && Reshelved(vms, after) && SameClusters(vms, after)
      && forall v :: v in after && after[v].folder.Some? ==> after[v].folder.value !in gone
  {
  }

  lemma FolderDeleted(s: State, s': State, f: Id)
    requires Sound(s) && s' == s.(vms := Detached(s.vms, {f}), folders := s.folders - {f})
    ensures Sound(s')
  {
    FolderRows(s.vms, {f});
    FolderPlaces(s, s', f);
    ReshelvedSound(s, s');
  }

  lemma FolderPlaces(s: State, s': State, f: Id)
    requires Sound(s) && Reshelved(s.vms, s'.vms) && SameClusters(s.vms, s'.vms)
    requires s'.folders == s.folders - {f} && s'.hosts == s.hosts && s'.clusters == s.clusters
    requires forall v :: v in s'.vms && s'.vms[v].folder.Some? ==> s'.vms[v].folder.value != f
    ensures Keeps(Places, s')
  {
    assert Holds(Places, s);
    forall v | v in s'.vms ensures s'.vms[v].host in s'.hosts { assert Reshelf(s.vms[v], s'.vms[v]); }
    FoldersGone(s, s', {f});
  }

  lemma DeleteFolderSound(s: State, f: Id)
    requires Sound(s)
    ensures Sound(DeleteFolderSpec(s, f).state)
  {
    if f in s.folders { FolderDeleted(s, DeleteFolderSpec(s, f).state, f); }
  }

  lemma PlaceVmPlaces(s: State, v: Id, folder: Option<Id>)
    requires Sound(s)
    ensures Keeps(Places, PlaceVmSpec(s, v, folder).state)
  {
    assert Holds(Places, s);
    assert PlacesSound(PlaceVmSpec(s, v, folder).state);
  }

  lemma PlaceVmGuids(s: State, s': State)
    requires Sound(s) && s'.vms.Keys == s.vms.Keys
    requires forall x :: x in s.vms ==> s'.vms[x] == s.vms[x].(folder := s'.vms[x].folder)
    ensures Keeps(Guids, s')
  {
    assert Holds(Guids, s);
    forall a, b | a in s'.vms && b in s'.vms && a != b && s'.vms[a].guid.Some? && s'.vms[a].guid == s'.vms[b].guid
      ensures !SameScope(s'.vms[a], s'.vms[b])
    {
      assert !SameScope(s.vms[a], s.vms[b]);
    }
    UniqueIsKept(s');
  }

  lemma VmPlaced(s: State, s': State, v: Id, folder: Option<Id>)
    requires Sound(s) && v in s.vms && s' == s.(vms := s.vms[v := s.vms[v].(folder := folder)]) && Keeps(Places, s')
    ensures Sound(s')
  {
    PlaceVmGuids(s, s');
    assert IdsGrow(s, s');
    IdsCarryOver(s, s');
    LabelsCarryOver(s, s');
    PlainEventsKeepLedger(s, s');
    Assemble(s');
  }

  lemma PlaceVmSound(s: State, v: Id, folder: Option<Id>)
    requires Sound(s)
    ensures Sound(PlaceVmSpec(s, v, folder).state)
  {
    if PlaceRefusal(s, v, folder).None? {
      PlaceVmPlaces(s, v, folder);
      VmPlaced(s, PlaceVmSpec(s, v, folder).state, v, folder);
    }
  }

  // Hosts and clusters may be added, and hosts report; existing hosts stay where they are.
  ghost predicate HostsGrow(s: State, s': State) {
    && s'.vms == s.vms && s'.folders == s.folders && s.clusters.Keys <= s'.clusters.Keys
    && (forall h :: h in s.hosts ==> h in s'.hosts && s'.hosts[h].cluster == s.hosts[h].cluster)
    && (forall h :: h in s'.hosts && h !in s.hosts && s'.hosts[h].cluster.Some? ==> s'.hosts[h].cluster.value in s'.clusters)
  }

  lemma HostsExtendedPlaces(s: State, s': State)
    requires Sound(s) && HostsGrow(s, s')
    ensures Keeps(Places, s')
  {
    assert Holds(Places, s);
    assert PlacesSound(s');
  }

  lemma HostsExtended(s: State, s': State)
    requires Sound(s) && HostsGrow(s, s') && IdsGrow(s, s')
    requires s' == s.(hosts := s'.hosts, clusters := s'.clusters, nextId := s'.nextId)
    ensures Sound(s')
  {
    HostsExtendedPlaces(s, s');
    IdsCarryOver(s, s');
    KeptGuids(s, s');
    LabelsCarryOver(s, s');
    PlainEventsKeepLedger(s, s');
    Assemble(s');
  }

  lemma HostReported(s: State, s': State, h: Id, host: Host)
    requires Sound(s) && h in s.hosts && host.cluster == s.hosts[h].cluster && s' == s.(hosts := s.hosts[h := host])
    ensures Sound(s')
  {
    assert IdsGrow(s, s');
    HostsExtended(s, s');
  }

  lemma ReportSound(s: State, h: Id, reported: Option<string>, seenAt: Option<Time>, clustered: bool, path: string)
    requires Sound(s)
    ensures Sound(ReportSpec(s, h, reported, seenAt, clustered, path))
  {
    if h in s.hosts {
      var s' := ReportSpec(s, h, reported, seenAt, clustered, path);
      HostReported(s, s', h, s'.hosts[h]);
    }
  }

  lemma HostAdded(s: State, s': State, host: Host)
    requires Sound(s) && (host.cluster.Some? ==> host.cluster.value in s.clusters)
    requires s' == s.(nextId := s.nextId + 1, hosts := s.hosts[s.nextId := host])
    ensures Sound(s')
  {
    NewIdIsNew(s);
    assert IdsGrow(s, s');
    HostsExtended(s, s');
  }

  lemma CreateHostSound(s: State, cluster: Option<Id>, hypervisor: string)
    requires Sound(s)
    ensures Sound(CreateHostSpec(s, cluster, hypervisor).state)
  {
    if ClusterRefusal(s.clusters, cluster, hypervisor).None? {
      HostAdded(s, CreateHostSpec(s, cluster, hypervisor).state, Host(cluster, hypervisor, None, false, ""));
    }
  }

  lemma ClusterAdded(s: State, s': State, hypervisor: string)
    requires Sound(s) && s' == s.(nextId := s.nextId + 1, clusters := s.clusters[s.nextId := hypervisor])
    ensures Sound(s')
  {
    assert IdsGrow(s, s');
    HostsExtended(s, s');
  }

  lemma CreateClusterSound(s: State, hypervisor: string)
    requires Sound(s)
    ensures Sound(CreateClusterSpec(s, hypervisor).state)
  {
    ClusterAdded(s, CreateClusterSpec(s, hypervisor).state, hypervisor);
  }
}
