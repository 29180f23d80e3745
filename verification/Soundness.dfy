/** Every step keeps everything the tables promise. */
module Soundness {
  import opened Wrappers
  import opened Model
  import opened CacheOps
  import opened Audit
  import opened Invariants
  import opened RowSteps
  import opened LedgerSteps
  import opened Engine
  import opened WorkSteps
  import opened ResponseSteps
  import opened SnapshotSteps
  import opened PlaceShapes
  import opened PlaceSteps
  import opened TagSteps

  lemma PruneSound(s: State, days: int)
    requires Sound(s)
    ensures Sound(s.(events := Pruned(s.events, days, s.now)))
  {
    var s' := s.(events := Pruned(s.events, days, s.now));
    assert IdsGrow(s, s');
    IdsCarryOver(s, s');
    PlainEventsKeepLedger(s, s');
    KeptTables(s, s');
    Assemble(s');
  }

  // ---- every step ------------------------------------------------------------------------------------------

  lemma PlacesStepSound(s: State, a: Action)
    requires Sound(s) && OfPlaces(a)
    ensures Sound(Next(s, a))
  {
    match a
    case Report(h, reported, seenAt, clustered, path) => ReportSound(s, h, reported, seenAt, clustered, path);
    case CreateCluster(hypervisor) => CreateClusterSound(s, hypervisor);
    case DeleteCluster(c) => DeleteClusterSound(s, c);
    case CreateHost(cluster, hypervisor) => CreateHostSound(s, cluster, hypervisor);
    case MoveHost(h, cluster) => MoveHostSound(s, h, cluster);
    case RemoveHost(h) => RemoveHostSound(s, h);
    case CreateFolder(cluster, owner) => CreateFolderSound(s, cluster, owner);
    case DeleteFolder(f) => DeleteFolderSound(s, f);
    case PlaceVm(v, folder) => PlaceVmSound(s, v, folder);
  }

  lemma WorkStepSound(s: State, a: Action)
    requires Sound(s) && !OfPlaces(a) && !a.Tick? && !a.ForceRelease? && !a.Tagging? && !a.Prune?
    ensures Sound(Next(s, a))
  {
    match a
    case ActOnVm(v, kind, destination, published) => ActionSound(s, v, kind, destination, published);
    case ProvisionVm(h, origin, destination, columns, published) =>
      ProvisionSound(s, h, origin, destination, columns, published);
    case Respond(h, r) => ResponseSound(s, h, r);
    case Snapshot(h, items) => SnapshotSound(s, h, items);
    case Sweep => SweepSound(s);
    case Forget(v) => ForgetSound(s, v);
    case ActOnHost(h, kind, published) => HostActionSound(s, h, kind, published);
  }

  /** Every step keeps the tables sound. */
  lemma NextSound(s: State, a: Action)
    requires Sound(s)
    ensures Sound(Next(s, a))
  {
    if OfPlaces(a) {
      PlacesStepSound(s, a);
    } else {
      match a
      case Tick(dt) => CacheOnlySound(s, Later(s, dt));
      case ForceRelease(v) => CacheOnlySound(s, s.(locks := s.locks - {v}));
      case Tagging(request) => TaggingSound(s, request);
      case Prune(days) => PruneSound(s, days);
      case _ => WorkStepSound(s, a);
    }
  }

  lemma EmptySound(cfg: Settings, now: Time)
    ensures Sound(Empty(cfg, now))
  {
    SoundMeans(Empty(cfg, now));
  }

  /** Every run from the empty system is sound throughout: GUIDs unique in scope, clusters in
      sync, folders reachable, tags consistent, pending events exactly for open tasks. */
  lemma {:induction false} RunSound(cfg: Settings, now: Time, actions: seq<Action>)
    ensures Sound(Run(Empty(cfg, now), actions))
  {
    if actions == [] {
      EmptySound(cfg, now);
    } else {
      RunSound(cfg, now, actions[..|actions| - 1]);
      NextSound(Run(Empty(cfg, now), actions[..|actions| - 1]), actions[|actions| - 1]);
    }
  }
}
