/** Every refusal names its reason, and changes nothing. */
module Refusals {
  import opened Wrappers
  import opened Model
  import opened Placement
  import opened Vms
  import opened HostActions
  import opened Organization
  import opened Tags
  import opened PlaceLaws
  import opened HostWork
  import opened TagEffects
  import opened LockLaws

  // ---- work on VMs ----------------------------------------------------------------------

  predicate IsHighlyAvailable(vm: Vm) {
    HighlyAvailable in vm.columns && vm.columns[HighlyAvailable] == Bool(true)
  }

  /** What error `e` of an action on a VM tells the caller. */
  predicate ActionReason(s: State, v: Id, kind: Kind, destination: string, published: bool, e: Error) {
    match e
    case UnknownAction => OfSomethingElse(kind)
    case NotFound => v !in s.vms
    case IntegrityError => v in s.vms && s.vms[v].host !in s.hosts
    case HaRequired => kind.VmMigrate? && v in s.vms && !IsHighlyAvailable(s.vms[v])
    case Invalid => kind.VmMove? && Sent(destination) == ""
    case StorageNotAllowed => kind.VmMove? && v in s.vms && s.vms[v].host in s.hosts
                              && !HostAllows(s.hosts[s.vms[v].host], NormPath(destination))
    case VmNotReady => v in s.vms && s.vms[v].guid.None?
    case HostOffline => v in s.vms && !HeardOf(s, s.vms[v].host)
    case VmLocked => v in s.locks && s.now < s.locks[v].expiresAt
    case PublishFailed => !published && InOrder(s, v, kind, destination)
    case _ => false
  }

  lemma RefusalHasReason(s: State, v: Id, kind: Kind, destination: string)
    ensures Refusal(s, v, kind, destination).Some? ==>
      ActionReason(s, v, kind, destination, true, Refusal(s, v, kind, destination).value)
  {
    ActionKinds(kind);
    NormIsSentBackslashed(destination);
  }

  lemma RefusedActionHasReason(s: State, v: Id, kind: Kind, destination: string, published: bool)
    ensures var reply := ActionSpec(s, v, kind, destination, published);
      reply.result.Err? ==>
        && ActionReason(s, v, kind, destination, published, reply.result.error)
        && (!reply.result.error.PublishFailed? ==> reply.state == s)
  {
    RefusalHasReason(s, v, kind, destination);
    InOrderExactly(s, v, kind, destination);
  }

  /** What error `e` of a create or clone tells the caller. */
  predicate ProvisionReason(s: State, h: Id, origin: Origin, destination: string, published: bool, e: Error) {
    match e
    case NotFound => h !in s.hosts || (origin.FromVm? && origin.source !in s.vms) || (origin.FromTemplate? && origin.home.None?)
    case HostOffline => h in s.hosts && !HeardOf(s, h)
    case StorageNotAllowed => h in s.hosts && !HostAllows(s.hosts[h], VmRow.Strip(destination))
    case TemplateUnreachable => origin.FromTemplate? && origin.home.Some? && h in s.hosts && origin.home.value != h
                                && !SameCluster(s.hosts, h, origin.home.value)
    case CrossHostClone => origin.FromVm? && origin.source in s.vms && s.vms[origin.source].host != h
    case SourceNotOff => origin.FromVm? && origin.source in s.vms && s.vms[origin.source].state != "Off"
    case VmNotReady => origin.FromVm? && origin.source in s.vms && s.vms[origin.source].guid.None?
    case PublishFailed => !published
    case _ => false
  }

  predicate SameCluster(hosts: map<Id, Host>, a: Id, b: Id) {
    a in hosts && b in hosts && hosts[a].cluster.Some? && hosts[a].cluster == hosts[b].cluster
  }

  lemma RefusedCreateHasReason(s: State, h: Id, origin: Origin, destination: string, columns: Columns, published: bool)
    ensures var reply := ProvisionSpec(s, h, origin, destination, columns, published);
      reply.result.Err? ==>
        && ProvisionReason(s, h, origin, destination, published, reply.result.error)
        && (!reply.result.error.PublishFailed? ==> reply.state == s)
  {
  }

  // ---- work on hosts ---------------------------------------------------------------------

  /** Open work on the host that this action must not be stacked on. */
  ghost predicate Busy(s: State, h: Id, kind: Kind) {
    exists t :: WorksOnHost(s, t) && s.tasks[t].host == h && Clash(kind, s.tasks[t].kind)
  }

  /** What error `e` of an action on a host tells the caller. */
  ghost predicate HostReason(s: State, h: Id, kind: Kind, published: bool, e: Error) {
    match e
    case NotFound => h !in s.hosts
    case UnknownAction => !OfHosts(kind)
    case HostOffline => h in s.hosts && !HeardOf(s, h)
    case NotClustered => NeedsCluster(kind) && h in s.hosts && s.hosts[h].cluster.None? && !s.hosts[h].reportsClustered
    case HostActionInProgress => Busy(s, h, kind)
    case PublishFailed => !published
    case _ => false
  }

  lemma ProgressIsBusy(s: State, h: Id, kind: Kind)
    requires InProgress(s.tasks, h, kind)
    ensures Busy(s, h, kind)
  {
    var t :| t in s.tasks && s.tasks[t].host == h && s.tasks[t].target.OnHost? && Excludes(kind, s.tasks[t].kind)
             && !Terminal(s.tasks[t].status);
    ExcludedKinds(kind, s.tasks[t].kind);
    assert WorksOnHost(s, t);
  }

  lemma RefusedHostActionHasReason(s: State, h: Id, kind: Kind, published: bool)
    ensures var reply := HostActionSpec(s, h, kind, published);
      reply.result.Err? ==>
        && HostReason(s, h, kind, published, reply.result.error)
        && (!reply.result.error.PublishFailed? ==> reply.state == s)
  {
    HostKinds(kind);
    if InProgress(s.tasks, h, kind) { ProgressIsBusy(s, h, kind); }
  }

  // ---- places --------------------------------------------------------------------------------

  /** What error `e` of putting a VM in a folder tells the caller. */
  predicate PlaceReason(s: State, v: Id, folder: Option<Id>, e: Error) {
    match e
    case NotFound => v !in s.vms || (folder.Some? && folder.value !in s.folders)
    case IntegrityError => v in s.vms && s.vms[v].host !in s.hosts
    case Invalid => v in s.vms && s.vms[v].host in s.hosts && folder.Some? && folder.value in s.folders
                    && OutOfReach(s.folders[folder.value], s.vms[v].host, s.hosts[s.vms[v].host])
    case _ => false
  }

  predicate OutOfReach(f: Folder, h: Id, host: Host) {
    match f.cluster
    case Some(c) => host.cluster != Some(c)
    case None => host.cluster.Some? || f.host != Some(h)
  }

  lemma RefusedPlacingHasReason(s: State, v: Id, folder: Option<Id>)
    ensures var reply := PlaceVmSpec(s, v, folder);
      reply.result.Err? ==> PlaceReason(s, v, folder, reply.result.error) && reply.state == s
  {
  }

  /** What error `e` of creating a folder tells the caller. */
  predicate FolderReason(s: State, cluster: Option<Id>, host: Option<Id>, e: Error) {
    match e
    case NotFound => (cluster.Some? && cluster.value !in s.clusters) || (host.Some? && host.value !in s.hosts)
    case Invalid => (cluster.Some? && host.Some?) || (cluster.None? && host.None?)
                    || (host.Some? && host.value in s.hosts && s.hosts[host.value].cluster.Some?)
    case _ => false
  }

  lemma RefusedFolderHasReason(s: State, cluster: Option<Id>, host: Option<Id>)
    ensures var reply := CreateFolderSpec(s, cluster, host);
      reply.result.Err? ==> FolderReason(s, cluster, host, reply.result.error) && reply.state == s
  {
  }

  /** What error `e` of attaching a host tells the caller; `MeetsItself` tells the rest. */
  predicate AttachReason(s: State, h: Id, cluster: Option<Id>, e: Error) {
    match e
    case NotFound => h !in s.hosts || (cluster.Some? && cluster.value !in s.clusters)
    case Invalid => h in s.hosts && cluster.Some? && cluster.value in s.clusters
                    && s.clusters[cluster.value] != s.hosts[h].hypervisor
    case IntegrityError => MayMove(s, h, cluster)
    case _ => false
  }

  lemma RefusedMoveHasReason(s: State, h: Id, cluster: Option<Id>)
    ensures var reply := MoveHostSpec(s, h, cluster);
      reply.result.Err? ==> AttachReason(s, h, cluster, reply.result.error) && reply.state == s
  {
  }

  // ---- tags ------------------------------------------------------------------------------------

  ghost predicate NoName(given: string) {
    forall name :: !NameFrom(given, name)
  }

  lemma UncheckedHasNoName(given: string)
    ensures CheckName(given).None? ==> NoName(given)
  {
    if CheckName(given).None? {
      forall name ensures !NameFrom(given, name) { CheckNameExactly(given, name); }
    }
  }

  predicate Rivals(s: State, a: Id, b: Id) {
    a != b && a in s.tags && b in s.tags && s.tags[a].category.Some? && s.tags[a].category == s.tags[b].category
  }

  /** What error `e` of assigning tags tells the caller. */
  ghost predicate AssignReason(s: State, v: Id, ids: seq<Id>, e: Error) {
    match e
    case NotFound => v !in s.vms || exists i :: 0 <= i < |ids| && ids[i] !in s.tags
    case TagConflict => exists i, j :: 0 <= i < |ids| && 0 <= j < |ids| && Rivals(s, ids[i], ids[j])
    case _ => false
  }

  lemma RefusedAssignmentHasReason(s: State, v: Id, ids: seq<Id>)
    ensures var reply := SetVmTagsSpec(s, v, ids);
      reply.result.Err? ==> AssignReason(s, v, ids, reply.result.error) && reply.state == s
  {
    if !(Members(ids) <= s.tags.Keys) {
      var t :| t in Members(ids) && t !in s.tags;
      var i :| 0 <= i < |ids| && ids[i] == t;
    }
    if Crowded(s.tags, Members(ids)) {
      var a, b :| a in Members(ids) && b in Members(ids) && a in s.tags && b in s.tags && a != b
                  && s.tags[a].category.Some? && s.tags[a].category == s.tags[b].category;
      var i :| 0 <= i < |ids| && ids[i] == a;
      var j :| 0 <= j < |ids| && ids[j] == b;
      assert Rivals(s, ids[i], ids[j]);
    }
  }

  /** Another tag of that category has that name, but for the case of its letters. */
  ghost predicate NameInUse(s: State, name: string, category: Option<Id>, but: Option<Id>) {
    exists u :: u in s.tags && Some(u) != but && s.tags[u].category == category && SameIgnoringCase(s.tags[u].name, name)
  }

  lemma TakenIsInUse(s: State, name: string, category: Option<Id>, but: Option<Id>)
    ensures TagTaken(s.tags, name, category, but) <==> NameInUse(s, name, category, but)
  {
    forall u | u in s.tags ensures Folded(s.tags[u].name) == Folded(name) <==> SameIgnoringCase(s.tags[u].name, name) {
      FoldedMeans(s.tags[u].name, name);
    }
  }

  /** What error `e` of creating a tag tells the caller. */
  ghost predicate TagReason(s: State, given: string, category: Option<Id>, color: string, e: Error) {
    match e
    case Invalid => NoName(given) || !UsableColor(color)
    case NotFound => category.Some? && category.value !in s.categories
    case Duplicate => exists name :: NameFrom(given, name) && NameInUse(s, name, category, None)
    case _ => false
  }

  lemma RefusedTagHasReason(s: State, given: string, category: Option<Id>, color: string)
    ensures var reply := CreateTagSpec(s, given, category, color);
      reply.result.Err? ==> TagReason(s, given, category, color, reply.result.error) && reply.state == s
  {
    UncheckedHasNoName(given);
    PaletteIs(color);
    if CheckName(given).Some? {
      CheckNameExactly(given, CheckName(given).value);
      TakenIsInUse(s, CheckName(given).value, category, None);
    }
  }
}
