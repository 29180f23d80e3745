/** What the steps on clusters, hosts and folders leave alone. */
module PlaceShapes {
  import opened Wrappers
  import opened Model
  import opened Organization
  import opened Engine
  import Audit

  // The row may lose its folder or follow its host into another cluster; that is all.
  ghost predicate SameVm(a: Vm, b: Vm) {
    b == a.(cluster := b.cluster, folder := b.folder)
  }

  ghost predicate RowsStay(before: map<Id, Vm>, after: map<Id, Vm>) {
    forall v :: v in after ==> v in before && SameVm(before[v], after[v])
  }

  /** Cache, clock, settings and tags stay; rows and tasks may go, and rows may change place. */
  ghost predicate PlacesOnly(s: State, s': State) {
    && s'.cfg == s.cfg && s'.now == s.now && s'.locks == s.locks && s'.overlay == s.overlay && s'.tombs == s.tombs
    && s'.tags == s.tags && s'.categories == s.categories && s.nextId <= s'.nextId
    && RowsStay(s.vms, s'.vms)
    && (forall t :: t in s'.tasks ==> t in s.tasks && s'.tasks[t] == s.tasks[t])
  }

  // Every step of this kind but a host's removal keeps the tasks and the events there are.
  ghost predicate LedgerGrows(s: State, s': State) {
    && s'.tasks == s.tasks
    && (forall e :: e in s'.events ==> e >= s.nextId || (e in s.events && s'.events[e] == s.events[e]))
  }

  predicate OfPlaces(a: Action) {
    a.Report? || a.CreateCluster? || a.DeleteCluster? || a.CreateHost? || a.MoveHost? || a.RemoveHost?
    || a.CreateFolder? || a.DeleteFolder? || a.PlaceVm?
  }

  // What the steps of this kind come to.
  ghost predicate Shaped(s: State, s': State) {
    PlacesOnly(s, s') && LedgerGrows(s, s')
  }

  // A step that changes nothing but the fields named.
  lemma Framed(s: State, s': State)
    requires s' == s.(nextId := s'.nextId, clusters := s'.clusters, hosts := s'.hosts, folders := s'.folders, vms := s'.vms)
    requires s.nextId <= s'.nextId && RowsStay(s.vms, s'.vms)
    ensures Shaped(s, s')
  {
  }

  lemma ReportShape(s: State, h: Id, reported: Option<string>, seenAt: Option<Time>, clustered: bool, path: string)
    ensures Shaped(s, ReportSpec(s, h, reported, seenAt, clustered, path))
  {
    Framed(s, ReportSpec(s, h, reported, seenAt, clustered, path));
  }

  lemma CreateClusterShape(s: State, hypervisor: string)
    ensures Shaped(s, CreateClusterSpec(s, hypervisor).state)
  {
    Framed(s, CreateClusterSpec(s, hypervisor).state);
  }

  lemma DeleteClusterRows(vms: map<Id, Vm>, gone: set<Id>, c: Id)
    ensures RowsStay(vms, Unclustered(Detached(vms, gone), c))
  {
  }

  lemma DeleteClusterShape(s: State, c: Id)
    ensures Shaped(s, DeleteClusterSpec(s, c).state)
  {
    if DeleteClusterSpec(s, c).result.Ok? {
      var gone := FoldersOfCluster(s.folders, c);
      var s' := s.(clusters := s.clusters - {c}, folders := s.folders - gone, vms := Unclustered(Detached(s.vms, gone), c));
      DeleteClusterRows(s.vms, gone, c);
      Framed(s, s');
      assert DeleteClusterSpec(s, c).state == s';
    } else {
      Framed(s, s);
      assert DeleteClusterSpec(s, c).state == s;
    }
  }

  lemma CreateHostShape(s: State, cluster: Option<Id>, hypervisor: string)
    ensures Shaped(s, CreateHostSpec(s, cluster, hypervisor).state)
  {
    if ClusterRefusal(s.clusters, cluster, hypervisor).None? {
      var s' := s.(nextId := s.nextId + 1, hosts := s.hosts[s.nextId := Host(cluster, hypervisor, None, false, "")]);
      Framed(s, s');
      assert CreateHostSpec(s, cluster, hypervisor).state == s';
    } else {
      Framed(s, s);
      assert CreateHostSpec(s, cluster, hypervisor).state == s;
    }
  }

  lemma MoveHostRows(s: State, h: Id, cluster: Option<Id>)
    ensures RowsStay(s.vms, MovedVms(s, h, cluster))
  {
  }

  lemma FramedMove(s: State, s': State, e: Event)
    requires s' == s.(nextId := s.nextId + 1, hosts := s'.hosts, folders := s'.folders, vms := s'.vms, events := s.events[s.nextId := e])
    requires RowsStay(s.vms, s'.vms)
    ensures Shaped(s, s')
  {
  }

  lemma MoveHostShape(s: State, h: Id, cluster: Option<Id>)
    ensures Shaped(s, MoveHostSpec(s, h, cluster).state)
  {
    var s' := MoveHostSpec(s, h, cluster).state;
    if s' == s {
      Framed(s, s);
    } else {
      MoveHostRows(s, h, cluster);
      FramedMove(s, s', Audit.NewEvent(s.now, HostMoved, h, Some(h), cluster, None));
    }
  }

  lemma FramedRemoval(s: State, s': State)
    requires s' == s.(nextId := s.nextId + 1, events := s'.events, hosts := s'.hosts, vms := s'.vms, tasks := s'.tasks, folders := s'.folders)
    requires RowsStay(s.vms, s'.vms) && forall t :: t in s'.tasks ==> t in s.tasks && s'.tasks[t] == s.tasks[t]
    ensures PlacesOnly(s, s')
  {
  }

  lemma RemoveHostRows(s: State, h: Id)
    ensures RowsStay(s.vms, Detached(s.vms - HostedOn(s.vms, h), FoldersOfHost(s.folders, h)))
  {
  }

  lemma RemoveHostShape(s: State, h: Id)
    ensures PlacesOnly(s, RemoveHostSpec(s, h).state)
  {
    if h in s.hosts {
      RemoveHostRows(s, h);
      FramedRemoval(s, RemoveHostSpec(s, h).state);
    } else {
      Framed(s, s);
    }
  }

  lemma CreateFolderShape(s: State, cluster: Option<Id>, owner: Option<Id>)
    ensures Shaped(s, CreateFolderSpec(s, cluster, owner).state)
  {
    if FolderRefusal(s, cluster, owner).None? {
      var s' := s.(nextId := s.nextId + 1, folders := s.folders[s.nextId := Folder(cluster, owner)]);
      Framed(s, s');
      assert CreateFolderSpec(s, cluster, owner).state == s';
    } else {
      Framed(s, s);
      assert CreateFolderSpec(s, cluster, owner).state == s;
    }
  }

  lemma DeleteFolderRows(vms: map<Id, Vm>, gone: set<Id>)
    ensures RowsStay(vms, Detached(vms, gone))
  {
  }

  lemma DeleteFolderShape(s: State, f: Id)
    ensures Shaped(s, DeleteFolderSpec(s, f).state)
  {
    DeleteFolderRows(s.vms, {f});
    Framed(s, DeleteFolderSpec(s, f).state);
  }

  lemma PlaceVmShape(s: State, v: Id, folder: Option<Id>)
    ensures Shaped(s, PlaceVmSpec(s, v, folder).state)
  {
    if PlaceRefusal(s, v, folder).None? {
      var s' := s.(vms := s.vms[v := s.vms[v].(folder := folder)]);
      Framed(s, s');
      assert PlaceVmSpec(s, v, folder).state == s';
    } else {
      Framed(s, s);
      assert PlaceVmSpec(s, v, folder).state == s;
    }
  }

  lemma HostsShape(s: State, a: Action)
    requires a.Report? || a.CreateCluster? || a.CreateHost?
    ensures Shaped(s, Next(s, a))
  {
    match a
    case Report(h, reported, seenAt, clustered, path) => ReportShape(s, h, reported, seenAt, clustered, path);
    case CreateCluster(hypervisor) => CreateClusterShape(s, hypervisor);
    case CreateHost(cluster, hypervisor) => CreateHostShape(s, cluster, hypervisor);
  }

  lemma FoldersShape(s: State, a: Action)
    requires a.CreateFolder? || a.DeleteFolder? || a.PlaceVm?
    ensures Shaped(s, Next(s, a))
  {
    match a
    case CreateFolder(cluster, owner) => CreateFolderShape(s, cluster, owner);
    case DeleteFolder(f) => DeleteFolderShape(s, f);
    case PlaceVm(v, folder) => PlaceVmShape(s, v, folder);
  }

  lemma PlacesShape(s: State, a: Action)
    requires OfPlaces(a)
    ensures PlacesOnly(s, Next(s, a)) && (!a.RemoveHost? ==> LedgerGrows(s, Next(s, a)))
  {
    match a
    case DeleteCluster(c) => DeleteClusterShape(s, c);
    case MoveHost(h, cluster) => MoveHostShape(s, h, cluster);
    case RemoveHost(h) => RemoveHostShape(s, h);
    case _ => if a.CreateFolder? || a.DeleteFolder? || a.PlaceVm? { FoldersShape(s, a); } else { HostsShape(s, a); }
  }
}
