/** Work on hosts: what is admitted, that disruptions are never stacked, and where an admitted
    new VM ends up. */
module HostWork {
  import opened Wrappers
  import opened Model
  import opened VmRow
  import opened Placement
  import opened Inventory
  import opened Responses
  import opened Vms
  import opened HostActions
  import opened Worker
  import opened Organization
  import opened TagLaws
  import opened Invariants
  import opened Engine
  import opened PlaceShapes
  import opened Soundness
  import opened Lifecycle
  import Locks
  import LockLaws

  // ---- one disruption at a time ----------------------------------------------------------

  /** An open task on a host's own agent. */
  predicate WorksOnHost(s: State, t: Id) {
    Open(s, t) && s.tasks[t].target.OnHost?
  }

  /** On each host at most one disruptive action is open, and at most one upgrade. */
  ghost predicate OneDisruption(s: State) {
    forall t, u :: WorksOnHost(s, t) && WorksOnHost(s, u) && Stacked(s, t, u) ==> t == u
  }

  predicate Stacked(s: State, t: Id, u: Id)
    requires t in s.tasks && u in s.tasks
  {
    s.tasks[t].host == s.tasks[u].host && Clash(s.tasks[t].kind, s.tasks[u].kind)
  }

  /** Pausing, resuming or restarting a node disturbs it. */
  predicate Disturbs(kind: Kind) {
    match kind
    case Suspend | SuspendDrain | Resume | ResumeFallback | HostRestart => true
    case _ => false
  }

  predicate Clash(a: Kind, b: Kind) {
    (Disturbs(a) && Disturbs(b)) || (a.HostUpdateAgent? && b.HostUpdateAgent?)
  }

  lemma ExcludedKinds(a: Kind, b: Kind)
    ensures Excludes(a, b) <==> Clash(a, b)
  {
  }

  // No host task is new, and none of the old ones is opened again.
  ghost predicate HostTasksStay(s: State, s': State) {
    forall t :: WorksOnHost(s', t) ==> WorksOnHost(s, t) && TaskFollows(s.tasks[t], s'.tasks[t])
  }

  lemma StayingIsOne(s: State, s': State)
    requires OneDisruption(s) && HostTasksStay(s, s')
    ensures OneDisruption(s')
  {
    forall t, u | WorksOnHost(s', t) && WorksOnHost(s', u) && Stacked(s', t, u) ensures t == u {
      assert TaskFollows(s.tasks[t], s'.tasks[t]) && TaskFollows(s.tasks[u], s'.tasks[u]);
      assert Stacked(s, t, u);
    }
  }

  // Every task of the new state was there, or is on a VM.
  ghost predicate NewOnVms(s: State, s': State) {
    forall t :: t in s'.tasks && t !in s.tasks ==> s'.tasks[t].target.OnVm?
  }

  lemma FollowingStays(s: State, s': State)
    requires TasksEvolve(s, s') && NewOnVms(s, s') && forall t :: t in s.tasks ==> t < s.nextId
    ensures HostTasksStay(s, s')
  {
    forall t | WorksOnHost(s', t) ensures WorksOnHost(s, t) && TaskFollows(s.tasks[t], s'.tasks[t]) {
      assert t in s.tasks;
    }
  }

  lemma ActionNewOnVms(s: State, v: Id, kind: Kind, destination: string, published: bool)
    ensures NewOnVms(s, ActionSpec(s, v, kind, destination, published).state)
  {
    if v in s.vms { EnqueueNewOnVms(s, v, kind, published); }
  }

  lemma EnqueueNewOnVms(s: State, v: Id, kind: Kind, published: bool)
    requires v in s.vms
    ensures NewOnVms(s, EnqueueSpec(s, v, kind, published).state)
  {
    var s', t := EnqueueSpec(s, v, kind, published).state, s.nextId;
    assert s'.tasks == if published then s.tasks[t := NewTask(kind, OnVm, v, s.vms[v].host, s.now)] else s.tasks;
  }

  lemma ProvisionNewOnVms(s: State, h: Id, origin: Origin, destination: string, columns: Columns, published: bool)
    ensures NewOnVms(s, ProvisionSpec(s, h, origin, destination, columns, published).state)
  {
    if h in s.hosts { InsertNewOnVms(s, h, ProvisionKind(origin), columns, published); }
  }

  lemma InsertNewOnVms(s: State, h: Id, kind: Kind, columns: Columns, published: bool)
    requires h in s.hosts
    ensures NewOnVms(s, InsertSpec(s, h, kind, columns, published).state)
  {
    var s', v := InsertSpec(s, h, kind, columns, published).state, s.nextId;
    assert s'.tasks == if published then s.tasks[v + 1 := NewTask(kind, OnVm, v, h, s.now)] else s.tasks;
  }

  lemma ResponseNewOnVms(s: State, h: Id, r: Response)
    ensures NewOnVms(s, ResponseSpec(s, h, r))
  {
    if Known(s, h, r) && !StillRunning(s.tasks[r.task], r) { EndedFields(s, h, r); }
  }

  lemma StepNewOnVms(s: State, a: Action)
    requires Sound(s) && !a.ActOnHost?
    ensures NewOnVms(s, Next(s, a))
  {
    match a
    case ActOnVm(v, kind, destination, published) => ActionNewOnVms(s, v, kind, destination, published);
    case ProvisionVm(h, origin, destination, columns, published) =>
      ProvisionNewOnVms(s, h, origin, destination, columns, published);
    case Respond(h, r) => ResponseNewOnVms(s, h, r);
    case Sweep =>
    case _ => LockLaws.OthersAreQuieter(s, a);
  }

  lemma HostActionIsOne(s: State, h: Id, kind: Kind, published: bool)
    requires Sound(s) && OneDisruption(s)
    ensures OneDisruption(HostActionSpec(s, h, kind, published).state)
  {
    if HostRefusal(s, h, kind).None? {
      var s', t := EnqueueHostSpec(s, h, kind, published).state, s.nextId;
      HostEnqueueFields(s, h, kind, published);
      Locks.NewIdsAreFree(s);
      QueueIsOne(s, s', h, t, kind);
    }
  }

  lemma QueueIsOne(s: State, s': State, h: Id, t: Id, kind: Kind)
    requires OneDisruption(s) && !InProgress(s.tasks, h, kind) && t !in s.tasks
    requires s'.tasks == s.tasks || s'.tasks == s.tasks[t := NewTask(kind, OnHost, h, h, s.now)]
    ensures OneDisruption(s')
  {
    forall x, y | WorksOnHost(s', x) && WorksOnHost(s', y) && Stacked(s', x, y) ensures x == y {
      if x != t && y != t {
        assert WorksOnHost(s, x) && WorksOnHost(s, y) && Stacked(s, x, y);
      } else if x != y {
        ExcludedKinds(s'.tasks[x].kind, s'.tasks[y].kind);
        assert false;
      }
    }
  }

  lemma NextIsOne(s: State, a: Action)
    requires Sound(s) && OneDisruption(s)
    ensures OneDisruption(Next(s, a))
  {
    if a.ActOnHost? {
      HostActionIsOne(s, a.host, a.kind, a.published);
    } else {
      NextProgresses(s, a);
      StepNewOnVms(s, a);
      Locks.NewIdsAreFree(s);
      TasksAreOld(s);
      FollowingStays(s, Next(s, a));
      StayingIsOne(s, Next(s, a));
    }
  }

  /** In every run: a drain is never stacked on a restart, nor an upgrade on another. */
  lemma {:induction false} RunIsOne(cfg: Settings, now: Time, actions: seq<Action>)
    ensures OneDisruption(Run(Empty(cfg, now), actions))
  {
    if actions != [] {
      RunIsOne(cfg, now, actions[..|actions| - 1]);
      RunSound(cfg, now, actions[..|actions| - 1]);
      NextIsOne(Run(Empty(cfg, now), actions[..|actions| - 1]), actions[|actions| - 1]);
    }
  }

  /** The state with one more open task of this kind on the host. */
  function WithHostTask(s: State, h: Id, kind: Kind): State {
    s.(tasks := s.tasks[s.nextId := NewTask(kind, OnHost, h, h, s.now)])
  }

  predicate NeedsCluster(kind: Kind) {
    kind.Suspend? || kind.SuspendDrain? || kind.Resume? || kind.ResumeFallback?
  }

  predicate OfHosts(kind: Kind) {
    NeedsCluster(kind) || kind.HostRestart? || kind.RefreshHardware? || kind.RefreshInventory? || kind.HostUpdateAgent?
  }

  lemma HostKinds(kind: Kind)
    ensures IsHostAction(kind) <==> OfHosts(kind)
    ensures ClusterNodeAction(kind) <==> NeedsCluster(kind)
  {
  }

  /** A host action is accepted exactly when it is one, the host's agent is there and is a
      cluster node where that matters, the host would still have one disruption at most, and the
      broker takes it. */
  lemma HostActionAdmittedExactly(s: State, h: Id, kind: Kind, published: bool)
    requires Sound(s) && OneDisruption(s)
    ensures HostActionSpec(s, h, kind, published).result.Ok?
      <==> published && OfHosts(kind) && LockLaws.HeardOf(s, h)
           && (NeedsCluster(kind) ==> s.hosts[h].cluster.Some? || s.hosts[h].reportsClustered)
           && OneDisruption(WithHostTask(s, h, kind))
  {
    HostAdmission(s, h, kind, published);
    if h in s.hosts { StackingIsProgress(s, h, kind); }
  }

  lemma HostAdmission(s: State, h: Id, kind: Kind, published: bool)
    ensures HostActionSpec(s, h, kind, published).result.Ok?
      <==> published && OfHosts(kind) && LockLaws.HeardOf(s, h)
           && (NeedsCluster(kind) ==> s.hosts[h].cluster.Some? || s.hosts[h].reportsClustered)
           && !InProgress(s.tasks, h, kind)
  {
    HostKinds(kind);
  }

  lemma StackingIsProgress(s: State, h: Id, kind: Kind)
    requires Sound(s) && OneDisruption(s) && h in s.hosts
    ensures OneDisruption(WithHostTask(s, h, kind)) <==> !InProgress(s.tasks, h, kind)
  {
    Locks.NewIdsAreFree(s);
    var s' := WithHostTask(s, h, kind);
    if InProgress(s.tasks, h, kind) {
      var t :| t in s.tasks && s.tasks[t].host == h && s.tasks[t].target.OnHost? && Excludes(kind, s.tasks[t].kind)
               && !Terminal(s.tasks[t].status);
      ExcludedKinds(kind, s.tasks[t].kind);
      assert WorksOnHost(s', s.nextId) && WorksOnHost(s', t) && Stacked(s', s.nextId, t);
    } else {
      QueueIsOne(s, s', h, s.nextId, kind);
    }
  }

  // ---- where an admitted VM is created -------------------------------------------------------------

  /** Does the agent place the VM where the platform wants it? */
  predicate Placed(h: Host, destination: string, name: string) {
    WellPlaced(Clustered(h), h.defaultVmPath, destination, name)
  }

  predicate Clonable(vm: Vm, h: Id) {
    vm.host == h && vm.state == "Off" && vm.guid.Some?
  }

  /** The host is up and the source or template can be used there. */
  predicate Available(s: State, h: Id, origin: Origin) {
    && LockLaws.HeardOf(s, h)
    && (origin.FromVm? ==> origin.source in s.vms && Clonable(s.vms[origin.source], h))
    && (origin.FromTemplate? ==> origin.home.Some? && Shares(s.hosts, h, origin.home.value))
  }

  // The destinations that are admitted although the agent places them elsewhere.
  predicate Escapes(h: Host, destination: string, name: string) {
    if Clustered(h) then NamesNoVolume(h.defaultVmPath, Sent(destination), name)
    else SlashedCsvOnC(h.defaultVmPath, destination)
  }

  /** An admitted create or clone has an available host and origin, and is well placed by the
      agent exactly unless its destination escapes; no slash-free destination does. */
  lemma AdmittedCreateIsPlaced(s: State, h: Id, origin: Origin, destination: string, columns: Columns, name: string)
    requires ProvisionSpec(s, h, origin, destination, columns, true).result.Ok?
    ensures Available(s, h, origin)
    ensures PlainPath(s.hosts[h].defaultVmPath) ==>
      (Placed(s.hosts[h], destination, name) <==> !Escapes(s.hosts[h], destination, name))
    ensures PlainPath(s.hosts[h].defaultVmPath) && NoSlash(destination) ==> Placed(s.hosts[h], destination, name)
  {
    AdmissionMeans(s, h, origin, destination);
    var default := s.hosts[h].defaultVmPath;
    if PlainPath(default) {
      StrippedIsSame(Clustered(s.hosts[h]), default, destination);
      if Clustered(s.hosts[h]) {
        ClusteredPlacementExactly(default, destination, name);
        if NoSlash(destination) { ClusteredPlacementIsSound(default, destination, name); }
      } else {
        StandalonePlacementExactly(default, destination, name);
        if NoSlash(destination) { StandalonePlacementIsSound(default, destination, name); }
      }
    }
  }

  // Well placed, but refused: the default folder decides, and the backend does not see it.
  predicate RefusedNeedlessly(h: Host, destination: string, name: string) {
    if Clustered(h) then VolumeByDefault(h.defaultVmPath, destination, name)
    else LocalBesideVolume(h.defaultVmPath, destination)
  }

  /** A slash-free create or clone is accepted exactly when host and origin are available, the
      agent places the VM well, it is none of the needlessly refused cases, and the broker takes
      the request. */
  lemma ProvisionAdmittedExactly(s: State, h: Id, origin: Origin, destination: string, columns: Columns, name: string,
                                 published: bool)
    requires NoSlash(destination) && (h in s.hosts ==> PlainPath(s.hosts[h].defaultVmPath))
    ensures ProvisionSpec(s, h, origin, destination, columns, published).result.Ok?
      <==> published && Available(s, h, origin) && Placed(s.hosts[h], destination, name)
           && !RefusedNeedlessly(s.hosts[h], destination, name)
  {
    AdmissionMeans(s, h, origin, destination);
    if h in s.hosts {
      StrippedIsSame(Clustered(s.hosts[h]), s.hosts[h].defaultVmPath, destination);
      AllowedExactly(s.hosts[h], destination, name);
    }
  }

  /** A storage move is accepted exactly when the VM is idle, known to its agent and within reach,
      a destination is given, and its normal form is where the platform wants VMs, but for the
      needlessly refused cases. */
  lemma MoveAdmittedExactly(s: State, v: Id, destination: string, name: string, published: bool)
    requires Locks.Exclusive(s) && LockLaws.Backed(s) && v in s.vms && s.vms[v].host in s.hosts
    requires PlainPath(s.hosts[s.vms[v].host].defaultVmPath)
    ensures var d, host := Backslashed(Sent(destination)), s.hosts[s.vms[v].host];
      ActionSpec(s, v, VmMove, destination, published).result.Ok?
      <==> published && LockLaws.Idle(s, v) && s.vms[v].guid.Some? && LockLaws.HeardOf(s, s.vms[v].host)
           && d != "" && Placed(host, d, name) && !RefusedNeedlessly(host, d, name)
  {
    LockLaws.ActionAdmittedExactly(s, v, VmMove, destination, published);
    NormIsSentBackslashed(destination);
    AllowedExactly(s.hosts[s.vms[v].host], Backslashed(Sent(destination)), name);
  }

  lemma AllowedExactly(h: Host, destination: string, name: string)
    requires NoSlash(destination) && PlainPath(h.defaultVmPath)
    ensures HostAllows(h, destination) <==> Placed(h, destination, name) && !RefusedNeedlessly(h, destination, name)
  {
    StandaloneAdmissionExactly(h.defaultVmPath, destination, name);
    ClusteredAdmissionExactly(h.defaultVmPath, destination, name);
  }

  lemma AdmissionMeans(s: State, h: Id, origin: Origin, destination: string)
    ensures ProvisionRefusal(s, h, origin, destination).None?
      <==> Available(s, h, origin) && HostAllows(s.hosts[h], Strip(destination))
  {
  }
}
