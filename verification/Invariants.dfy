/** What every reachable state promises. Each predicate is one guarantee the services rely on;
    the engine's lemmas prove that every step keeps all of them. */
module Invariants {
  import opened Wrappers
  import opened Model
  import opened Tags

  // ---- ids and references -------------------------------------------------------------

  /** Ids are handed out once: nothing, not even a leftover cache key, names a future one. */
  ghost predicate FreshIds(s: State) {
    && (forall c :: c in s.clusters ==> c < s.nextId)
    && (forall h :: h in s.hosts ==> h < s.nextId)
    && (forall f :: f in s.folders ==> f < s.nextId)
    && (forall v :: v in s.vms ==> v < s.nextId)
    && (forall t :: t in s.tasks ==> t < s.nextId && s.tasks[t].targetId < s.nextId)
    && (forall e :: e in s.events ==> e < s.nextId && (s.events[e].task.Some? ==> s.events[e].task.value < s.nextId))
    && (forall c :: c in s.categories ==> c < s.nextId)
    && (forall t :: t in s.tags ==> t < s.nextId)
    && (forall v :: v in s.locks ==> v < s.nextId && s.locks[v].task < s.nextId)
    && (forall v :: v in s.overlay ==> v < s.nextId)
  }

  ghost predicate ClustersExist(s: State) {
    forall h :: h in s.hosts && s.hosts[h].cluster.Some? ==> s.hosts[h].cluster.value in s.clusters
  }

  /** A VM is on a known host and carries that host's cluster. */
  ghost predicate ClusterSync(s: State) {
    forall v :: v in s.vms ==> s.vms[v].host in s.hosts && s.vms[v].cluster == s.hosts[s.vms[v].host].cluster
  }

  // ---- folders -----------------------------------------------------------------------------

  /** May a VM of host `h` be in folder `f`? */
  predicate Reaches(hosts: map<Id, Host>, f: Folder, h: Id) {
    if f.cluster.Some? then h in hosts && hosts[h].cluster == f.cluster
    else f.host == Some(h)
  }

  /** A folder belongs to one existing cluster or to one existing standalone host. */
  ghost predicate FoldersScoped(s: State) {
    forall f :: f in s.folders ==>
      && s.folders[f].cluster.Some? != s.folders[f].host.Some?
      && (s.folders[f].cluster.Some? ==> s.folders[f].cluster.value in s.clusters)
      && (s.folders[f].host.Some? ==> s.folders[f].host.value in s.hosts && s.hosts[s.folders[f].host.value].cluster.None?)
  }

  ghost predicate FoldersReachable(s: State) {
    forall v :: v in s.vms && s.vms[v].folder.Some? ==>
      s.vms[v].folder.value in s.folders && Reaches(s.hosts, s.folders[s.vms[v].folder.value], s.vms[v].host)
  }

  // ---- tasks and their audit events ----------------------------------------------------------

  predicate TaskSound(t: Task) {
    && (t.finishedAt.Some? <==> Terminal(t.status))
    && (t.status.Succeeded? ==> t.progress == Some(100))
    && (t.target.OnHost? ==> t.targetId == t.host)
  }

  ghost predicate TasksSound(s: State) {
    forall t :: t in s.tasks ==> TaskSound(s.tasks[t])
  }

  predicate Open(s: State, t: Id) {
    t in s.tasks && !Terminal(s.tasks[t].status)
  }

  /** An event is pending exactly as long as its task exists and is open. */
  ghost predicate EventsFollowTasks(s: State) {
    forall e :: e in s.events ==>
      (s.events[e].outcome.Pending? <==> s.events[e].task.Some? && Open(s, s.events[e].task.value))
  }

  /** Hosts, clusters, folders and VMs fit together. */
  ghost predicate PlacesSound(s: State) {
    ClustersExist(s) && ClusterSync(s) && FoldersScoped(s) && FoldersReachable(s)
  }

  /** Tasks belong to existing hosts, are well-formed, and their events follow them. */
  ghost predicate LedgerSound(s: State) {
    && (forall t :: t in s.tasks ==> s.tasks[t].host in s.hosts)
    && TasksSound(s) && EventsFollowTasks(s)
  }

  // The guarantees by name, so that a proof opens only the ones it is about.
  datatype Part = Ids | Places | Guids | Labels | Records

  ghost predicate Holds(p: Part, s: State) {
    match p
    case Ids => FreshIds(s)
    case Places => PlacesSound(s)
    case Guids => GuidsUnique(s.vms)
    case Labels => TagInv(s)
    case Records => LedgerSound(s)
  }

  /** Everything the tables promise, in every reachable state. */
  ghost predicate Sound(s: State) {
    forall p {:trigger Holds(p, s)} :: Holds(p, s)
  }

  // One of the guarantees, closed.
  ghost predicate Keeps(p: Part, s: State) {
    forall q {:trigger Holds(q, s)} :: q == p ==> Holds(q, s)
  }

  lemma Assemble(s: State)
    requires Keeps(Ids, s) && Keeps(Places, s) && Keeps(Guids, s) && Keeps(Labels, s) && Keeps(Records, s)
    ensures Sound(s)
  {
  }

  /** What `Sound` says, spelt out. */
  lemma SoundMeans(s: State)
    ensures Sound(s) <==> FreshIds(s) && PlacesSound(s) && GuidsUnique(s.vms) && TagInv(s) && LedgerSound(s)
  {
    if Sound(s) {
      assert Holds(Ids, s) && Holds(Places, s) && Holds(Guids, s) && Holds(Labels, s) && Holds(Records, s);
    }
  }

  // ---- cache ---------------------------------------------------------------------------------

  /** An overlay entry of an existing VM says what the row says. */
  ghost predicate Agree(vms: map<Id, Vm>, overlay: map<Id, Cached>) {
    forall v :: v in vms && v in overlay ==> overlay[v].state == vms[v].state
  }

  ghost predicate OverlayAgrees(s: State) {
    Agree(s.vms, s.overlay)
  }
}
