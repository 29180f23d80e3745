/** The agent's VM object, its canonical form, and how it is copied onto a Vm row
    (normalize_vm and _write_vm_row of app/services/inventory.py). */
module VmRow {
  import opened Wrappers
  import opened Model

  const MIB := 1024 * 1024
  const GIB := 1024 * MIB
  const ALL: set<Column> := set c: Column | true

  // ---- Python's view of a JSON value ----------------------------------------------

  predicate Truthy(j: Json) {
    match j
    case Null => false
    case Bool(b) => b
    case Num(n) => n != 0
    case Str(s) => s != ""
    case List(xs) => xs != []
    case Obj(m) => m != map[]
  }

  function Or(a: Json, b: Json): Json {
    if Truthy(a) then a else b
  }

  function Get(raw: Raw, key: string): Json {
    if key in raw then raw[key] else Null
  }

  /** First present (not-null) value among keys. */
  function First(raw: Raw, keys: seq<string>): Json {
    if keys == [] then Null
    else if Get(raw, keys[0]) != Null then Get(raw, keys[0])
    else First(raw, keys[1..])
  }

  function Member(j: Json, key: string): Json {
    if j.Obj? then Get(j.fields, key) else Null
  }

  function AsBool(j: Json): Json {
    Bool(Truthy(j))
  }

  function AsInt(j: Json): Json {
    match j
    case Num(n) => j
    case Bool(b) => Num(if b then 1 else 0)
    case _ => Null
  }

  function MibToBytes(j: Json): Json {
    var n := AsInt(j);
    if n.Num? then Num(n.n * MIB) else Null
  }

  function Upper(s: string): string {
    if s == "" then ""
    else [if 'a' <= s[0] <= 'z' then (s[0] as int - 32) as char else s[0]] + Upper(s[1..])
  }

  predicate Blank(c: char) {
    || c == ' ' || '\t' <= c <= '\r' || '\U{1c}' <= c <= '\U{1f}' || c in {'\U{85}', '\U{a0}', '\U{1680}'}
    || '\U{2000}' <= c <= '\U{200a}' || c in {'\U{2028}', '\U{2029}', '\U{202f}', '\U{205f}', '\U{3000}'}
  }

  function LStrip(s: string): string {
    if s != "" && Blank(s[0]) then LStrip(s[1..]) else s
  }

  function RStrip(s: string): string {
    if s != "" && Blank(s[|s| - 1]) then RStrip(s[..|s| - 1]) else s
  }

  function Strip(s: string): string {
    RStrip(LStrip(s))
  }

  // ---- entries of the disk, NIC and snapshot lists --------------------------------------

  function WithDefault(f: Raw, key: string, default: Json): Json {
    if key in f then f[key] else default
  }

  // One entry for each object of a list; anything else in it is passed over.
  function EntriesOf(xs: seq<Json>, entry: Raw -> Json): seq<Json> {
    if xs == [] then []
    else (if xs[0].Obj? then [entry(xs[0].fields)] else []) + EntriesOf(xs[1..], entry)
  }

  function Entries(j: Json, entry: Raw -> Json): Json {
    List(if j.List? then EntriesOf(j.xs, entry) else [])
  }

  function DiskEntry(v: Raw): Json {
    var gib, format := AsInt(Or(Get(v, "sizeGb"), Num(0))), Or(Get(v, "format"), Str(""));
    Obj(map["id" := Or(Get(v, "diskId"), Or(Get(v, "id"), Str(""))),
            "path" := WithDefault(v, "path", Str("")),
            "controller" := WithDefault(v, "controller", Str("")),
            "sizeBytes" := if gib.Num? then Num(gib.n * GIB) else Null,
            "usedBytes" := AsInt(Get(v, "usedBytes")),
            "type" := Or(Get(v, "type"), Str("")),
            "format" := if format.Str? then Str(Upper(format.s)) else format])
  }

  predicate IpSeparator(c: char) {
    c == ',' || c == ';' || Blank(c)
  }

  // The non-empty pieces between separators; `piece` is the one being read.
  function Pieces(s: string, piece: string): seq<Json> {
    if s == "" then (if piece == "" then [] else [Str(piece)])
    else if IpSeparator(s[0]) then (if piece == "" then [] else [Str(piece)]) + Pieces(s[1..], "")
    else Pieces(s[1..], piece + [s[0]])
  }

  function TruthyOf(xs: seq<Json>): seq<Json> {
    if xs == [] then [] else (if Truthy(xs[0]) then [xs[0]] else []) + TruthyOf(xs[1..])
  }

  function SplitIps(j: Json): Json {
    List(if j.List? then TruthyOf(j.xs) else if j.Str? then Pieces(j.s, "") else [])
  }

  function NicEntry(n: Raw): Json {
    Obj(map["id" := WithDefault(n, "id", Str("")),
            "name" := WithDefault(n, "name", Str("")),
            "switchName" := Or(Get(n, "switchName"), Or(Get(n, "networkId"), Str(""))),
            "vlanId" := Get(n, "vlanId"),
            "macAddress" := WithDefault(n, "macAddress", Str("")),
            "ipAddresses" := SplitIps(Get(n, "ipAddresses")),
            "connected" := AsBool(WithDefault(n, "connected", Bool(true)))])
  }

  function SnapshotEntry(s: Raw): Json {
    Obj(map["id" := Or(Get(s, "id"), Or(Get(s, "snapshotId"), Str(""))),
            "name" := WithDefault(s, "name", Str("")),
            "parentId" := Or(Get(s, "parentId"), Get(s, "parentSnapshotId")),
            "type" := Or(Get(s, "type"), Or(Get(s, "snapshotType"), Null)),
            "createdAt" := Or(Get(s, "createdAt"), Get(s, "creationTime"))])
  }

  // ---- normalize_vm ------------------------------------------------------------------

  datatype VmInfo = VmInfo(guid: Option<Guid>, state: Json, fields: Columns)

  function FirmwareOf(raw: Raw): Json {
    var given := Get(raw, "firmware");
    var fw := if given.Str? then Upper(given.s) else "";
    if fw == "BIOS" || fw == "UEFI" then Str(fw)
    else if Get(raw, "generation") in {Num(1), Bool(true)} then Str("BIOS")
    else Str("UEFI")
  }

  function MemoryBytesOf(raw: Raw): Json {
    var direct := Or(First(raw, ["memoryBytes"]), Member(Get(raw, "memory"), "assignedBytes"));
    var bytes := if direct.Null? then MibToBytes(First(raw, ["memoryMb", "memoryMB"])) else direct;
    Or(AsInt(bytes), Num(0))
  }

  function MemoryDemandOf(raw: Raw): Json {
    var direct := First(raw, ["memoryDemandBytes"]);
    AsInt(if direct.Null? then MibToBytes(First(raw, ["memoryConsumedMb"])) else direct)
  }

  function NicsOf(raw: Raw): Json {
    var nics := Or(Get(raw, "nics"), List([]));
    if nics.List? && nics.xs != [] && nics.xs[0].Obj? && "switchName" !in nics.xs[0].fields
    then Entries(nics, NicEntry) else nics
  }

  /** The canonical value of one column. */
  function Canonical(raw: Raw, c: Column): Json {
    var mem := Get(raw, "memory");
    match c
    case Name => Get(raw, "name")
    case MetricsEnabled => Get(raw, "metricsEnabled")
    case GuestOs => Get(raw, "guestOs")
    case Firmware => FirmwareOf(raw)
    case Vcpu => if Get(raw, "vcpu").Null? then Member(Get(raw, "cpu"), "vcpus") else Get(raw, "vcpu")
    case MemoryDynamic => Bool(Truthy(Get(raw, "memoryDynamic")) || Truthy(Member(mem, "dynamic")))
    case NestedVirtualization => AsBool(First(raw, ["nestedVirtualization", "nested"]))
    case HighlyAvailable => AsBool(First(raw, ["highlyAvailable", "ha"]))
    case UptimeSec => Get(raw, "uptimeSec")
    case MemoryBytes => MemoryBytesOf(raw)
    case MemoryMinBytes => AsInt(Or(First(raw, ["memoryMinBytes"]), Member(mem, "minBytes")))
    case MemoryMaxBytes => AsInt(Or(First(raw, ["memoryMaxBytes"]), Member(mem, "maxBytes")))
    case MemoryDemandBytes => MemoryDemandOf(raw)
    case CpuUsagePercent => AsInt(First(raw, ["cpuUsagePercent", "cpuUsagePct"]))
    case SecureBoot => Get(raw, "secureBoot")
    case SecureBootTemplate => Or(Get(raw, "secureBootTemplate"), Null)
    case AutoStartAction => First(raw, ["autoStartAction", "automaticStart"])
    case AutoStartDelaySec => AsInt(First(raw, ["autoStartDelaySec", "automaticStartDelay"]))
    case AutoStopAction => First(raw, ["autoStopAction", "automaticStop"])
    case ConfigPath => First(raw, ["configPath", "path"])
    case DvdPath => First(raw, ["dvdPath", "dvd"])
    case Notes => Get(raw, "notes")
    case CreatedAt => Or(Get(raw, "createdAt"), Get(raw, "creationTime"))
    case Disks => if Get(raw, "disks").Null? then Entries(Get(raw, "vhds"), DiskEntry) else Get(raw, "disks")
    case Nics => NicsOf(raw)
    case Snapshots => Entries(Get(raw, "snapshots"), SnapshotEntry)
  }

  function NonEmpty(j: Json): Option<Guid> {
    if j.Str? && j.s != "" then Some(j.s) else None
  }

  /** The hypervisor's GUID of the entry: `id`, else `vmId`; blank counts as missing. */
  function GuidOf(raw: Raw): Option<Guid> {
    if NonEmpty(Get(raw, "id")).Some? then NonEmpty(Get(raw, "id")) else NonEmpty(Get(raw, "vmId"))
  }

  function NormalizeVm(raw: Raw): VmInfo {
    VmInfo(GuidOf(raw),
           if "state" in raw then raw["state"] else Str("Unknown"),
           map c | c in ALL :: Canonical(raw, c))
  }

  // ---- _write_vm_row -------------------------------------------------------------------

  /** The payload keys that signal "this field was reported". */
  function Signals(c: Column): seq<string> {
    match c
    case Name => ["name"]
    case MetricsEnabled => ["metricsEnabled"]
    case GuestOs => ["guestOs"]
    case Firmware => ["firmware", "generation"]
    case Vcpu => ["vcpu", "cpu"]
    case MemoryDynamic => ["memoryDynamic", "memory"]
    case NestedVirtualization => ["nestedVirtualization", "nested"]
    case HighlyAvailable => ["highlyAvailable", "ha"]
    case UptimeSec => ["uptimeSec"]
    case MemoryBytes => ["memoryBytes", "memoryMb", "memoryMB", "memory"]
    case MemoryMinBytes => ["memoryMinBytes", "memory"]
    case MemoryMaxBytes => ["memoryMaxBytes", "memory"]
    case MemoryDemandBytes => ["memoryDemandBytes", "memoryConsumedMb"]
    case CpuUsagePercent => ["cpuUsagePercent", "cpuUsagePct"]
    case SecureBoot => ["secureBoot"]
    case SecureBootTemplate => ["secureBootTemplate"]
    case AutoStartAction => ["autoStartAction", "automaticStart"]
    case AutoStartDelaySec => ["autoStartDelaySec", "automaticStartDelay"]
    case AutoStopAction => ["autoStopAction", "automaticStop"]
    case ConfigPath => ["configPath", "path"]
    case DvdPath => ["dvdPath", "dvd"]
    case Notes => ["notes"]
    case CreatedAt => ["createdAt", "creationTime"]
    case Disks => ["disks", "vhds"]
    case Nics => ["nics"]
    case Snapshots => ["snapshots"]
  }

  predicate Signalled(raw: Raw, c: Column) {
    exists k :: k in Signals(c) && k in raw
  }

  /** The columns a payload may write: all of them in a full inventory, the signalled
      ones in a partial status update. */
  function Reported(raw: Raw, partial: bool): set<Column> {
    if partial then set c | c in ALL && Signalled(raw, c) else ALL
  }

  function At(columns: Columns, c: Column): Json {
    if c in columns then columns[c] else Null
  }

  function AsCount(j: Json): Json {
    var n := AsInt(j);
    if n.Num? && n.n != 0 then n else Num(1)
  }

  function Clip(s: string): string {
    if |s| > 255 then s[..255] else s
  }

  // A payload ready to be copied: its canonical fields, the columns it reports, the mode.
  datatype Patch = Patch(fields: Columns, reported: set<Column>, partial: bool)

  function PatchOf(raw: Raw, partial: bool): Patch {
    Patch(NormalizeVm(raw).fields, Reported(raw, partial), partial)
  }

  /** Does this payload write column `c`? */
  predicate Writes(p: Patch, c: Column) {
    var v := At(p.fields, c);
    if c == Name then !p.partial || (c in p.reported && Truthy(v))
    else if c == MetricsEnabled then !v.Null?
    else if c == GuestOs then v.Str? && Strip(v.s) != ""
    else c in p.reported && (c == CreatedAt ==> Truthy(v))
  }

  /** The value it writes, given what the column holds and the row's GUID. */
  function Written(p: Patch, c: Column, held: Json, guid: Option<Guid>): Json {
    var v := At(p.fields, c);
    if c == Name then Or(Or(v, held), if guid.Some? then Str(guid.value) else Null)
    else if c == MetricsEnabled then AsBool(v)
    else if c == GuestOs then Str(Clip(if v.Str? then Strip(v.s) else ""))
    else if c == Vcpu then AsCount(Or(v, if p.partial then held else Num(1)))
    else v
  }

  /** The new values of the columns among `cs` that the payload writes. */
  function Changes(columns: Columns, cs: set<Column>, p: Patch, guid: Option<Guid>): Columns {
    map c | c in cs && Writes(p, c) :: Written(p, c, At(columns, c), guid)
  }

  function WriteState(state: string, raw: Raw, partial: bool): string {
    var info := NormalizeVm(raw);
    if partial && "state" !in raw && "powerState" !in raw then state
    else if NonEmpty(info.state).Some? then info.state.s
    else if partial then state else "Unknown"
  }

  /** What copying a payload onto a row leaves: folder, tags and GUID are never touched. */
  function WriteVmRowSpec(vm: Vm, raw: Raw, host: Id, cluster: Option<Id>, partial: bool, now: Time): Vm {
    vm.(host := host,
        cluster := cluster,
        state := WriteState(vm.state, raw, partial),
        columns := vm.columns + Changes(vm.columns, ALL, PatchOf(raw, partial), vm.guid),
        inventoriedAt := Some(now))
  }

  // One assignment of the source: column `c` on top of the columns already done.
  lemma OneMore(columns: Columns, cs: set<Column>, c: Column, p: Patch, guid: Option<Guid>)
    requires c !in cs
    ensures Changes(columns, cs + {c}, p, guid)
         == (if Writes(p, c) then Changes(columns, cs, p, guid)[c := Written(p, c, At(columns, c), guid)]
             else Changes(columns, cs, p, guid))
  {
  }

  lemma Assigned(columns: Columns, cs: set<Column>, c: Column, p: Patch, guid: Option<Guid>)
    requires c !in cs
    ensures columns + Changes(columns, cs + {c}, p, guid)
         == (if Writes(p, c) then (columns + Changes(columns, cs, p, guid))[c := Written(p, c, At(columns, c), guid)]
             else columns + Changes(columns, cs, p, guid))
  {
    OneMore(columns, cs, c, p, guid);
  }

  /** Copy a payload onto a row, column by column. */
  method WriteVmRow(vm: Vm, raw: Raw, host: Id, cluster: Option<Id>, partial: bool, now: Time) returns (row: Vm)
    ensures row == WriteVmRowSpec(vm, raw, host, cluster, partial, now)
  {
    var info := NormalizeVm(raw);
    var state := vm.state;
    if !partial || "state" in raw || "powerState" in raw {
      state := if NonEmpty(info.state).Some? then info.state.s
               else if partial then state else "Unknown";
    }
    var p := PatchOf(raw, partial);
    var cols := WriteColumns(vm.columns, p, vm.guid);
    row := vm.(host := host, cluster := cluster, state := state, columns := cols, inventoriedAt := Some(now));
  }

  method WriteColumns(columns: Columns, p: Patch, guid: Option<Guid>) returns (cols: Columns)
    ensures cols == columns + Changes(columns, ALL, p, guid)
  {
    cols := columns;
    for i := 0 to COLUMN_COUNT
      invariant cols == columns + Changes(columns, Before(i), p, guid)
    {
      var c := Nth(i);
      PositionOfNth(i);
      assert c !in Before(i) && Before(i + 1) == Before(i) + {c};
      Assigned(columns, Before(i), c, p, guid);
      if Writes(p, c) {
        cols := cols[c := Written(p, c, At(columns, c), guid)];
      }
    }
    assert Before(COLUMN_COUNT) == ALL;
  }

  // The order in which the source assigns the columns.
  const COLUMN_COUNT := 26

  function Position(c: Column): (i: nat)
    ensures i < COLUMN_COUNT && Nth(i) == c
  {
    match c
    case Name => 0 case MetricsEnabled => 1 case GuestOs => 2 case Firmware => 3 case Vcpu => 4
    case MemoryDynamic => 5 case NestedVirtualization => 6 case HighlyAvailable => 7
    case UptimeSec => 8 case MemoryBytes => 9 case MemoryMinBytes => 10 case MemoryMaxBytes => 11
    case MemoryDemandBytes => 12 case CpuUsagePercent => 13 case SecureBoot => 14
    case SecureBootTemplate => 15 case AutoStartAction => 16 case AutoStartDelaySec => 17
    case AutoStopAction => 18 case ConfigPath => 19 case DvdPath => 20 case Notes => 21
    case CreatedAt => 22 case Disks => 23 case Nics => 24 case Snapshots => 25
  }

  function Nth(i: nat): Column
    requires i < COLUMN_COUNT
  {
    match i
    case 0 => Name case 1 => MetricsEnabled case 2 => GuestOs case 3 => Firmware case 4 => Vcpu
    case 5 => MemoryDynamic case 6 => NestedVirtualization case 7 => HighlyAvailable
    case 8 => UptimeSec case 9 => MemoryBytes case 10 => MemoryMinBytes case 11 => MemoryMaxBytes
    case 12 => MemoryDemandBytes case 13 => CpuUsagePercent case 14 => SecureBoot
    case 15 => SecureBootTemplate case 16 => AutoStartAction case 17 => AutoStartDelaySec
    case 18 => AutoStopAction case 19 => ConfigPath case 20 => DvdPath case 21 => Notes
    case 22 => CreatedAt case 23 => Disks case 24 => Nics case _ => Snapshots
  }

  function Before(i: nat): set<Column> {
    set c | c in ALL && Position(c) < i
  }

  lemma PositionOfNth(i: nat)
    requires i < COLUMN_COUNT
    ensures Position(Nth(i)) == i
  {
  }
}
