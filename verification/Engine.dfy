/** The whole system as one state machine: users, agents, the sweeper and the clock, each step
    one transaction together with its cache calls. */
module Engine {
  import opened Wrappers
  import opened Model
  import opened CacheOps
  import Audit
  import opened Inventory
  import opened Responses
  import opened Vms
  import opened HostActions
  import opened Worker
  import opened Organization
  import opened TagLaws

  datatype Action =
    | Tick(dt: nat)
    | ActOnVm(vm: Id, kind: Kind, destination: string, published: bool)
    | ProvisionVm(host: Id, origin: Origin, destination: string, columns: Columns, published: bool)
    | Respond(host: Id, response: Response)
    | Snapshot(host: Id, items: seq<Item>)
    | Sweep
    | Forget(vm: Id)
    | ForceRelease(vm: Id)
    | ActOnHost(host: Id, kind: Kind, published: bool)
    | Report(host: Id, reported: Option<string>, seenAt: Option<Time>, clustered: bool, path: string)
    | CreateCluster(hypervisor: string)
    | DeleteCluster(id: Id)
    | CreateHost(cluster: Option<Id>, hypervisor: string)
    | MoveHost(host: Id, cluster: Option<Id>)
    | RemoveHost(host: Id)
    | CreateFolder(cluster: Option<Id>, owner: Option<Id>)
    | DeleteFolder(id: Id)
    | PlaceVm(vm: Id, folder: Option<Id>)
    | Tagging(request: TagRequest)
    | Prune(days: int)

  function Next(s: State, a: Action): State {
    match a
    case Tick(dt) => Later(s, dt)
    case ActOnVm(v, kind, destination, published) => ActionSpec(s, v, kind, destination, published).state
    case ProvisionVm(h, origin, destination, columns, published) =>
      ProvisionSpec(s, h, origin, destination, columns, published).state
    case Respond(h, r) => ResponseSpec(s, h, r)
    case Snapshot(h, items) => SnapshotSpec(s, h, items)
    case Sweep => SweepSpec(s)
    case Forget(v) => ForgetSpec(s, v).state
    case ForceRelease(v) => s.(locks := s.locks - {v})
    case ActOnHost(h, kind, published) => HostActionSpec(s, h, kind, published).state
    case Report(h, reported, seenAt, clustered, path) => ReportSpec(s, h, reported, seenAt, clustered, path)
    case CreateCluster(hypervisor) => CreateClusterSpec(s, hypervisor).state
    case DeleteCluster(c) => DeleteClusterSpec(s, c).state
    case CreateHost(cluster, hypervisor) => CreateHostSpec(s, cluster, hypervisor).state
    case MoveHost(h, cluster) => MoveHostSpec(s, h, cluster).state
    case RemoveHost(h) => RemoveHostSpec(s, h).state
    case CreateFolder(cluster, owner) => CreateFolderSpec(s, cluster, owner).state
    case DeleteFolder(f) => DeleteFolderSpec(s, f).state
    case PlaceVm(v, folder) => PlaceVmSpec(s, v, folder).state
    case Tagging(request) => TagSpec(s, request).state
    case Prune(days) => s.(events := Audit.Pruned(s.events, days, s.now))
  }

  function Run(s: State, actions: seq<Action>): State {
    if actions == [] then s else Next(Run(s, actions[..|actions| - 1]), actions[|actions| - 1])
  }
}
