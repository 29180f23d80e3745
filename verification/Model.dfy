/** The tables, the cache and the clock that every service works on.

    A row is a value in a table keyed by its id; ids stand for UUIDv4 strings and are
    never handed out twice. `State` is one consistent view of everything; `Database`
    and `Cache` are the two stores the services update in place. */
module Model {
  import opened Wrappers

  type Id = nat
  type Guid = string
  // Microseconds, like the source's datetimes.
  type Time = int
  const SECOND: Time := 1_000_000

  // ---- values on the wire -------------------------------------------------------

  datatype Json =
    | Null
    | Bool(b: bool)
    | Num(n: int)
    | Str(s: string)
    | List(xs: seq<Json>)
    | Obj(fields: map<string, Json>)

  type Raw = map<string, Json>

  // One entry of a VM list. `Malformed` stands for every entry whose processing raises.
  datatype Item = Item(raw: Raw) | Malformed

  /** No entry raises. */
  predicate WellFormed(items: seq<Item>) {
    forall i :: 0 <= i < |items| ==> items[i].Item?
  }

  datatype Reported = SaysRunning | SaysSucceeded | SaysFailed

  datatype Response = Response(
    task: Id,
    status: Reported,
    progress: Option<int>,
    error: Option<string>,
    warning: Option<string>,
    vmId: string,
    vmState: string,
    items: seq<Item>,
    finishedAt: Option<Time>)

  // ---- rows -----------------------------------------------------------------------

  // The functions of the VM and host actions, by their wire names.
  datatype Kind =
    | VmStart | VmStop | VmShutdown | VmRestart | VmPause | VmDelete
    | VmEnableMetrics | VmDisableMetrics | VmRename | VmEdit | VmMigrate | VmMove
    | VmStartupChange | MountDvd | EjectDvd | EnableHa | DisableHa | VmExportTemplate
    | NotesEdit | SnapshotCreate | SnapshotRemove | SnapshotRestore | RefreshStatus
    | VmCreate | VmClone | VmBatchStart | VmBatchStop
    | HostUpdateAgent | Suspend | SuspendDrain | Resume | ResumeFallback | HostRestart
    | RefreshHardware | RefreshInventory

  /** The two kinds that make a VM: their target is a placeholder row. */
  predicate MakesVm(kind: Kind) {
    kind.VmCreate? || kind.VmClone?
  }

  datatype Status = Queued | Running | Succeeded | Failed | Timeout

  predicate Terminal(st: Status) {
    st.Succeeded? || st.Failed? || st.Timeout?
  }

  datatype Target = OnVm | OnHost

  datatype Task = Task(
    kind: Kind,
    status: Status,
    target: Target,
    targetId: Id,
    host: Id,
    createdAt: Time,
    startedAt: Option<Time>,
    finishedAt: Option<Time>,
    progress: Option<int>,
    error: Option<string>)

  datatype Host = Host(
    cluster: Option<Id>,
    hypervisor: string,
    lastSeen: Option<Time>,
    // what the hardware report says: Failover Cluster member, Hyper-V default VM path
    reportsClustered: bool,
    defaultVmPath: string)

  datatype Folder = Folder(cluster: Option<Id>, host: Option<Id>)

  datatype Column =
    | Name | MetricsEnabled | GuestOs | Firmware | Vcpu
    | MemoryDynamic | NestedVirtualization | HighlyAvailable
    | UptimeSec | MemoryBytes | MemoryMinBytes | MemoryMaxBytes | MemoryDemandBytes
    | CpuUsagePercent | SecureBoot | SecureBootTemplate
    | AutoStartAction | AutoStartDelaySec | AutoStopAction
    | ConfigPath | DvdPath | Notes | CreatedAt
    | Disks | Nics | Snapshots

  type Columns = map<Column, Json>

  datatype Vm = Vm(
    guid: Option<Guid>,
    host: Id,
    cluster: Option<Id>,
    folder: Option<Id>,
    tags: set<Id>,
    state: string,
    columns: Columns,
    inventoriedAt: Option<Time>)

  datatype Outcome = Pending | Settled(status: Status)

  datatype EventAction =
    | OfTask(kind: Kind)
    | VmForget | VmInventoryRemove | HostMoved | HostDeleted

  datatype Event = Event(
    occurredAt: Time,
    action: EventAction,
    target: Id,
    host: Option<Id>,
    cluster: Option<Id>,
    task: Option<Id>,
    outcome: Outcome,
    error: Option<string>)

  datatype Tag = Tag(name: string, category: Option<Id>, color: string)

  // ---- cache entries ---------------------------------------------------------------

  datatype Lock = Lock(task: Id, kind: Kind, expiresAt: Time)
  datatype Cached = Cached(state: string, expiresAt: Time)
  datatype TombKey = TombKey(host: Id, guid: Guid)

  // ---- everything together ---------------------------------------------------------

  datatype Settings = Settings(
    taskTimeout: nat,
    stateTtl: nat,
    offlineAfter: nat)

  datatype State = State(
    cfg: Settings,
    now: Time,
    nextId: Id,
    clusters: map<Id, string>,
    hosts: map<Id, Host>,
    folders: map<Id, Folder>,
    vms: map<Id, Vm>,
    tasks: map<Id, Task>,
    events: map<Id, Event>,
    categories: map<Id, string>,
    tags: map<Id, Tag>,
    locks: map<Id, Lock>,
    overlay: map<Id, Cached>,
    tombs: map<TombKey, Time>)

  datatype Error =
    | NotFound | Invalid | Duplicate | TagConflict | IntegrityError
    | VmNotReady | VmLocked | HostOffline | HostOnline | HaRequired
    | StorageNotAllowed | CrossHostClone | SourceNotOff | TemplateUnreachable | PublishFailed
    | UnknownAction | HostActionInProgress | NotClustered

  class Database {
    var nextId: Id
    var clusters: map<Id, string>
    var hosts: map<Id, Host>
    var folders: map<Id, Folder>
    var vms: map<Id, Vm>
    var tasks: map<Id, Task>
    var events: map<Id, Event>
    var categories: map<Id, string>
    var tags: map<Id, Tag>

    constructor ()
      ensures nextId == 0
      ensures clusters == map[] && hosts == map[] && folders == map[] && vms == map[]
      ensures tasks == map[] && events == map[] && categories == map[] && tags == map[]
    {
      nextId := 0;
      clusters, hosts, folders, vms := map[], map[], map[], map[];
      tasks, events, categories, tags := map[], map[], map[], map[];
    }

    /** A fresh id: greater than every id handed out so far. */
    method NewId() returns (id: Id)
      modifies this`nextId
      ensures id == old(nextId) && nextId == old(nextId) + 1
    {
      id := nextId;
      nextId := nextId + 1;
    }
  }

  class Cache {
    var locks: map<Id, Lock>
    var overlay: map<Id, Cached>
    var tombs: map<TombKey, Time>

    constructor ()
      ensures locks == map[] && overlay == map[] && tombs == map[]
    {
      locks, overlay, tombs := map[], map[], map[];
    }
  }

  /** The two stores, the settings and the clock as one value. */
  function Snap(db: Database, cache: Cache, cfg: Settings, now: Time): State
    reads db, cache
  {
    State(cfg, now, db.nextId, db.clusters, db.hosts, db.folders, db.vms, db.tasks, db.events,
          db.categories, db.tags, cache.locks, cache.overlay, cache.tombs)
  }

  function Empty(cfg: Settings, now: Time): State {
    State(cfg, now, 0, map[], map[], map[], map[], map[], map[], map[], map[], map[], map[], map[])
  }

  function Later(s: State, dt: nat): State {
    s.(now := s.now + dt)
  }

  // ---- small shared notions ----------------------------------------------------------

  /** The agent of `h` checked in recently enough (serializers.agent_connected). */
  predicate Online(h: Host, cfg: Settings, now: Time) {
    h.lastSeen.Some? && h.lastSeen.value >= now - cfg.offlineAfter * SECOND
  }

  predicate HasGuid(vm: Vm, g: Guid) {
    vm.guid == Some(g)
  }

  /** Two rows whose GUIDs must differ: same cluster, or same standalone host. */
  predicate SameScope(a: Vm, b: Vm) {
    if a.cluster.Some? || b.cluster.Some? then a.cluster == b.cluster else a.host == b.host
  }

  /** The two partial unique indexes of the vms table. */
  ghost predicate GuidsUnique(vms: map<Id, Vm>) {
    forall a, b :: a in vms && b in vms && a != b && vms[a].guid.Some? && vms[a].guid == vms[b].guid
      ==> !SameScope(vms[a], vms[b])
  }
}
