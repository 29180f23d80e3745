/** Normalizing what normalize_vm returned: when it changes nothing
    (normalize_vm of app/services/inventory.py, which is called idempotent). */
module Renormalize {
  import opened Wrappers
  import opened Model
  import opened VmRow

  // ---- the dictionary normalize_vm returns ----------------------------------------------

  function ColumnKey(c: Column): string {
    match c
    case Name => "name"
    case MetricsEnabled => "metricsEnabled"
    case GuestOs => "guestOs"
    case Firmware => "firmware"
    case Vcpu => "vcpu"
    case MemoryDynamic => "memoryDynamic"
    case NestedVirtualization => "nestedVirtualization"
    case HighlyAvailable => "highlyAvailable"
    case UptimeSec => "uptimeSec"
    case MemoryBytes => "memoryBytes"
    case MemoryMinBytes => "memoryMinBytes"
    case MemoryMaxBytes => "memoryMaxBytes"
    case MemoryDemandBytes => "memoryDemandBytes"
    case CpuUsagePercent => "cpuUsagePercent"
    case SecureBoot => "secureBoot"
    case SecureBootTemplate => "secureBootTemplate"
    case AutoStartAction => "autoStartAction"
    case AutoStartDelaySec => "autoStartDelaySec"
    case AutoStopAction => "autoStopAction"
    case ConfigPath => "configPath"
    case DvdPath => "dvdPath"
    case Notes => "notes"
    case CreatedAt => "createdAt"
    case Disks => "disks"
    case Nics => "nics"
    case Snapshots => "snapshots"
  }

  // A number by which the keys can be told apart.
  function Tag(k: string): int {
    if k == "" then 0
    else |k| + 4 * (k[0] as int) + (k[|k| - 1] as int) + if |k| > 7 then 3 * (k[7] as int) else 0
  }

  function ColumnOfTag(t: int): Option<Column> {
    match t
    case 545 => Some(Name)
    case 757 => Some(MetricsEnabled)
    case 534 => Some(GuestOs)
    case 820 => Some(Firmware)
    case 593 => Some(Vcpu)
    case 911 => Some(MemoryDynamic)
    case 885 => Some(NestedVirtualization)
    case 886 => Some(HighlyAvailable)
    case 879 => Some(UptimeSec)
    case 925 => Some(MemoryBytes)
    case 880 => Some(MemoryMinBytes)
    case 856 => Some(MemoryMaxBytes)
    case 871 => Some(MemoryDemandBytes)
    case 830 => Some(CpuUsagePercent)
    case 919 => Some(SecureBoot)
    case 912 => Some(SecureBootTemplate)
    case 855 => Some(AutoStartAction)
    case 846 => Some(AutoStartDelaySec)
    case 848 => Some(AutoStopAction)
    case 801 => Some(ConfigPath)
    case 511 => Some(DvdPath)
    case 560 => Some(Notes)
    case 716 => Some(CreatedAt)
    case 520 => Some(Disks)
    case 559 => Some(Nics)
    case 932 => Some(Snapshots)
    case _ => None
  }

  lemma TagOfKey(c: Column)
    ensures ColumnOfTag(Tag(ColumnKey(c))) == Some(c)
  {
  }

  function AllKeys(): set<string> {
    (set c | c in ALL :: ColumnKey(c)) + {"vmUuid", "state"}
  }

  function ColumnFor(k: string): Column {
    if ColumnOfTag(Tag(k)).Some? then ColumnOfTag(Tag(k)).value else Name
  }

  /** The returned dictionary: the GUID goes out under "vmUuid". */
  function DictOf(info: VmInfo): Raw {
    map k | k in AllKeys() ::
      if k == "vmUuid" then (if info.guid.Some? then Str(info.guid.value) else Null)
      else if k == "state" then info.state
      else At(info.fields, ColumnFor(k))
  }

  // A key that is neither a column's, nor one of the two others.
  predicate Foreign(k: string) {
    ColumnOfTag(Tag(k)).None? && k != "vmUuid" && k != "state"
  }

  lemma ReservedKeys(k: string)
    requires k == "vmUuid" || k == "state"
    ensures ColumnOfTag(Tag(k)).None?
  {
  }

  /** Every column is found under its own key, the state under "state", and nothing else is there. */
  lemma DictReads(info: VmInfo)
    ensures forall c :: Get(DictOf(info), ColumnKey(c)) == At(info.fields, c)
    ensures "state" in DictOf(info) && DictOf(info)["state"] == info.state
    ensures forall k :: Foreign(k) ==> Get(DictOf(info), k) == Null && k !in DictOf(info)
  {
    var d := DictOf(info);
    forall c ensures Get(d, ColumnKey(c)) == At(info.fields, c) {
      var k := ColumnKey(c);
      TagOfKey(c);
      if k == "vmUuid" || k == "state" { ReservedKeys(k); }
      assert c in ALL && k in AllKeys();
    }
    forall k | Foreign(k) ensures k !in d {
      forall c ensures ColumnKey(c) != k { TagOfKey(c); }
    }
    assert "state" in AllKeys();
  }

  // What the second pass finds: the first pass's columns, and none of the agent's other keys.
  ghost predicate SecondPass(d: Raw, raw: Raw) {
    && (forall c :: Get(d, ColumnKey(c)) == Canonical(raw, c))
    && (forall k :: Foreign(k) ==> Get(d, k) == Null && k !in d)
  }

  // ---- when it changes nothing ----------------------------------------------------------------

  /** Two keys that are read with `or`, where the second holds a falsy value that is not null. */
  predicate BlankOnly(f: Raw, a: string, b: string) {
    !Truthy(Get(f, a)) && !Truthy(Get(f, b)) && Get(f, b) != Null
  }

  /** A zero that is only reported inside the memory object. */
  predicate ZeroOnlyNested(raw: Raw, flat: string, nested: string) {
    !Truthy(Get(raw, flat)) && Member(Get(raw, "memory"), nested) in {Num(0), Bool(false)}
  }

  predicate SnapshotPasses(s: Raw) {
    !BlankOnly(s, "parentId", "parentSnapshotId") && !BlankOnly(s, "createdAt", "creationTime")
  }

  predicate SnapshotsPass(xs: seq<Json>) {
    forall i :: 0 <= i < |xs| && xs[i].Obj? ==> SnapshotPasses(xs[i].fields)
  }

  predicate ColumnPasses(raw: Raw, c: Column) {
    match c
    case MemoryMinBytes => !ZeroOnlyNested(raw, "memoryMinBytes", "minBytes")
    case MemoryMaxBytes => !ZeroOnlyNested(raw, "memoryMaxBytes", "maxBytes")
    case CreatedAt => !BlankOnly(raw, "createdAt", "creationTime")
    case Snapshots => Get(raw, "snapshots").List? ==> SnapshotsPass(Get(raw, "snapshots").xs)
    case _ => true
  }

  /** The entries normalize_vm leaves as they are when it sees its own output. */
  predicate Passes(raw: Raw) {
    && GuidOf(raw).None?
    && ColumnPasses(raw, MemoryMinBytes) && ColumnPasses(raw, MemoryMaxBytes)
    && ColumnPasses(raw, CreatedAt) && ColumnPasses(raw, Snapshots)
  }

  // ---- column by column -------------------------------------------------------------------------

  lemma ForeignKeys()
    ensures Foreign("id") && Foreign("vmId") && Foreign("cpu") && Foreign("memory") && Foreign("vhds")
    ensures Foreign("memoryMb") && Foreign("memoryMB") && Foreign("memoryConsumedMb") && Foreign("cpuUsagePct")
  {
  }

  lemma ForeignKeys2()
    ensures Foreign("nested") && Foreign("ha") && Foreign("automaticStart") && Foreign("automaticStartDelay")
    ensures Foreign("automaticStop") && Foreign("path") && Foreign("dvd") && Foreign("creationTime") && Foreign("generation")
  {
  }

  // The second pass sees none of the agent's own keys.
  lemma AgentKeysGone(d: Raw, raw: Raw)
    requires SecondPass(d, raw)
    ensures Get(d, "cpu") == Null && Get(d, "memory") == Null && Get(d, "vhds") == Null
    ensures Get(d, "memoryMb") == Null && Get(d, "memoryMB") == Null && Get(d, "memoryConsumedMb") == Null
    ensures Get(d, "cpuUsagePct") == Null
  {
    ForeignKeys();
  }

  lemma AgentKeysGone2(d: Raw, raw: Raw)
    requires SecondPass(d, raw)
    ensures Get(d, "nested") == Null && Get(d, "ha") == Null && Get(d, "automaticStart") == Null
    ensures Get(d, "automaticStartDelay") == Null && Get(d, "automaticStop") == Null && Get(d, "path") == Null
    ensures Get(d, "dvd") == Null && Get(d, "creationTime") == Null
  {
    ForeignKeys2();
  }

  // A column read from one key only, or from one key before others.
  lemma FirstOfTwo(d: Raw, a: string, b: string)
    requires Get(d, b) == Null
    ensures First(d, [a, b]) == Get(d, a)
  {
    FirstOfOne(d, b);
    assert [a, b][1..] == [b];
  }

  lemma FirstOfOne(d: Raw, a: string)
    ensures First(d, [a]) == Get(d, a)
  {
    assert [a][1..] == [];
  }

  lemma PlainColumns(d: Raw, raw: Raw, c: Column)
    requires SecondPass(d, raw)
    requires c in {Name, MetricsEnabled, GuestOs, UptimeSec, SecureBoot, SecureBootTemplate, Notes}
    ensures Canonical(d, c) == Canonical(raw, c)
  {
    assert Get(d, ColumnKey(c)) == Canonical(raw, c);
  }

  lemma CpuColumn(d: Raw, raw: Raw)
    requires SecondPass(d, raw)
    ensures Canonical(d, Vcpu) == Canonical(raw, Vcpu)
  {
    AgentKeysGone(d, raw);
    assert Get(d, ColumnKey(Vcpu)) == Canonical(raw, Vcpu);
  }

  lemma FlagColumns(d: Raw, raw: Raw, c: Column)
    requires SecondPass(d, raw) && c in {NestedVirtualization, HighlyAvailable, CpuUsagePercent}
    ensures Canonical(d, c) == Canonical(raw, c)
  {
    AgentKeysGone(d, raw);
    AgentKeysGone2(d, raw);
    assert Get(d, ColumnKey(c)) == Canonical(raw, c);
    match c
    case NestedVirtualization => FirstOfTwo(d, "nestedVirtualization", "nested");
    case HighlyAvailable => FirstOfTwo(d, "highlyAvailable", "ha");
    case CpuUsagePercent => FirstOfTwo(d, "cpuUsagePercent", "cpuUsagePct");
  }

  lemma StartColumns(d: Raw, raw: Raw, c: Column)
    requires SecondPass(d, raw) && c in {AutoStartAction, AutoStartDelaySec, AutoStopAction}
    ensures Canonical(d, c) == Canonical(raw, c)
  {
    AgentKeysGone2(d, raw);
    assert Get(d, ColumnKey(c)) == Canonical(raw, c);
    match c
    case AutoStartAction => FirstOfTwo(d, "autoStartAction", "automaticStart");
    case AutoStartDelaySec => FirstOfTwo(d, "autoStartDelaySec", "automaticStartDelay");
    case AutoStopAction => FirstOfTwo(d, "autoStopAction", "automaticStop");
  }

  lemma PathColumns(d: Raw, raw: Raw, c: Column)
    requires SecondPass(d, raw) && c in {ConfigPath, DvdPath}
    ensures Canonical(d, c) == Canonical(raw, c)
  {
    AgentKeysGone2(d, raw);
    assert Get(d, ColumnKey(c)) == Canonical(raw, c);
    FirstOfTwo(d, "configPath", "path");
    FirstOfTwo(d, "dvdPath", "dvd");
  }

  lemma FirmwareNames()
    ensures Upper("BIOS") == "BIOS" && Upper("UEFI") == "UEFI"
  {
    assert "BIOS"[1..] == "IOS" && "IOS"[1..] == "OS" && "OS"[1..] == "S" && "S"[1..] == "";
    assert "UEFI"[1..] == "EFI" && "EFI"[1..] == "FI" && "FI"[1..] == "I" && "I"[1..] == "";
    assert Upper("") == "" && Upper("S") == "S" && Upper("OS") == "OS" && Upper("IOS") == "IOS";
    assert Upper("I") == "I" && Upper("FI") == "FI" && Upper("EFI") == "EFI";
  }

  lemma FirmwareColumn(d: Raw, raw: Raw)
    requires SecondPass(d, raw)
    ensures Canonical(d, Firmware) == Canonical(raw, Firmware)
  {
    FirmwareNames();
    assert Get(d, ColumnKey(Firmware)) == Canonical(raw, Firmware);
  }

  lemma MemoryFlag(d: Raw, raw: Raw)
    requires SecondPass(d, raw)
    ensures Canonical(d, MemoryDynamic) == Canonical(raw, MemoryDynamic)
  {
    AgentKeysGone(d, raw);
    assert Get(d, ColumnKey(MemoryDynamic)) == Canonical(raw, MemoryDynamic);
  }

  lemma MemorySize(d: Raw, raw: Raw)
    requires SecondPass(d, raw)
    ensures Canonical(d, MemoryBytes) == Canonical(raw, MemoryBytes)
  {
    AgentKeysGone(d, raw);
    assert Get(d, ColumnKey(MemoryBytes)) == Canonical(raw, MemoryBytes);
    FirstOfOne(d, "memoryBytes");
    FirstOfTwo(d, "memoryMb", "memoryMB");
  }

  lemma MemoryDemand(d: Raw, raw: Raw)
    requires SecondPass(d, raw)
    ensures Canonical(d, MemoryDemandBytes) == Canonical(raw, MemoryDemandBytes)
  {
    AgentKeysGone(d, raw);
    assert Get(d, ColumnKey(MemoryDemandBytes)) == Canonical(raw, MemoryDemandBytes);
    FirstOfOne(d, "memoryDemandBytes");
    FirstOfOne(d, "memoryConsumedMb");
  }

  lemma MemoryBounds(d: Raw, raw: Raw, c: Column)
    requires SecondPass(d, raw) && c in {MemoryMinBytes, MemoryMaxBytes}
    ensures Canonical(d, c) == Canonical(raw, c) <==> ColumnPasses(raw, c)
  {
    AgentKeysGone(d, raw);
    assert Get(d, ColumnKey(c)) == Canonical(raw, c);
    FirstOfOne(d, "memoryMinBytes");
    FirstOfOne(d, "memoryMaxBytes");
    FirstOfOne(raw, "memoryMinBytes");
    FirstOfOne(raw, "memoryMaxBytes");
  }

  lemma CreatedColumn(d: Raw, raw: Raw)
    requires SecondPass(d, raw)
    ensures Canonical(d, CreatedAt) == Canonical(raw, CreatedAt) <==> ColumnPasses(raw, CreatedAt)
  {
    AgentKeysGone2(d, raw);
    assert Get(d, ColumnKey(CreatedAt)) == Canonical(raw, CreatedAt);
  }

  lemma DiskColumn(d: Raw, raw: Raw)
    requires SecondPass(d, raw)
    ensures Canonical(d, Disks) == Canonical(raw, Disks)
  {
    assert Get(d, ColumnKey(Disks)) == Canonical(raw, Disks);
  }

  lemma NicEntryNamesSwitch(n: Raw)
    ensures NicEntry(n).Obj? && "switchName" in NicEntry(n).fields
  {
  }

  lemma NicsColumn(d: Raw, raw: Raw)
    requires SecondPass(d, raw)
    ensures Canonical(d, Nics) == Canonical(raw, Nics)
  {
    assert Get(d, ColumnKey(Nics)) == Canonical(raw, Nics);
    var nics := Or(Get(raw, "nics"), List([]));
    if nics.List? && nics.xs != [] && nics.xs[0].Obj? && "switchName" !in nics.xs[0].fields {
      NicEntryNamesSwitch(nics.xs[0].fields);
      var mapped := EntriesOf(nics.xs, NicEntry);
      assert mapped[0] == NicEntry(nics.xs[0].fields);
    }
  }

  // ---- the entries of the snapshot list --------------------------------------------------------------

  // The five keys of an entry, and the three others an agent uses.
  predicate EntryHolds(e: Raw, id: Json, name: Json, parent: Json, kind: Json, created: Json) {
    && Get(e, "id") == id && "name" in e && e["name"] == name && Get(e, "parentId") == parent
    && Get(e, "type") == kind && Get(e, "createdAt") == created
    && Get(e, "snapshotId") == Null && Get(e, "parentSnapshotId") == Null
    && Get(e, "snapshotType") == Null && Get(e, "creationTime") == Null
  }

  lemma EntryReads(id: Json, name: Json, parent: Json, kind: Json, created: Json)
    ensures EntryHolds(map["id" := id, "name" := name, "parentId" := parent, "type" := kind, "createdAt" := created],
                       id, name, parent, kind, created)
  {
    assert |"id"| == 2 && |"name"| == 4 && |"parentId"| == 8 && |"type"| == 4 && |"createdAt"| == 9;
    assert |"snapshotId"| == 10 && |"parentSnapshotId"| == 16 && |"snapshotType"| == 12 && |"creationTime"| == 12;
    assert "name"[0] == 'n' && "type"[0] == 't';
  }

  lemma SnapshotAgain(s: Raw)
    ensures SnapshotEntry(s).Obj?
    ensures SnapshotEntry(SnapshotEntry(s).fields) == SnapshotEntry(s) <==> SnapshotPasses(s)
  {
    var id := Or(Get(s, "id"), Or(Get(s, "snapshotId"), Str("")));
    var name := WithDefault(s, "name", Str(""));
    var parent := Or(Get(s, "parentId"), Get(s, "parentSnapshotId"));
    var kind := Or(Get(s, "type"), Or(Get(s, "snapshotType"), Null));
    var created := Or(Get(s, "createdAt"), Get(s, "creationTime"));
    EntryReads(id, name, parent, kind, created);
    var e := SnapshotEntry(s).fields;
    assert EntryHolds(e, id, name, parent, kind, created);
    var parent2, created2 := Or(parent, Null), Or(created, Null);
    EntryReads(id, name, parent2, kind, created2);
    var e2 := SnapshotEntry(e).fields;
    assert e2 == map["id" := id, "name" := name, "parentId" := parent2, "type" := kind, "createdAt" := created2];
    assert e2 == e <==> parent2 == parent && created2 == created;
  }

  lemma {:induction false} SnapshotsAgain(xs: seq<Json>)
    ensures EntriesOf(EntriesOf(xs, SnapshotEntry), SnapshotEntry) == EntriesOf(xs, SnapshotEntry) <==> SnapshotsPass(xs)
  {
    if xs != [] {
      var rest := EntriesOf(xs[1..], SnapshotEntry);
      SnapshotsAgain(xs[1..]);
      assert SnapshotsPass(xs) <==> (xs[0].Obj? ==> SnapshotPasses(xs[0].fields)) && SnapshotsPass(xs[1..]) by {
        assert forall i :: 0 <= i < |xs| - 1 ==> xs[1..][i] == xs[i + 1];
        if SnapshotsPass(xs[1..]) && (xs[0].Obj? ==> SnapshotPasses(xs[0].fields)) {
          forall i | 0 <= i < |xs| && xs[i].Obj? ensures SnapshotPasses(xs[i].fields) {
            if i > 0 { assert xs[1..][i - 1] == xs[i]; }
          }
        }
      }
      if xs[0].Obj? {
        SnapshotAgain(xs[0].fields);
        OneMoreEntry(SnapshotEntry(xs[0].fields), rest);
      } else {
        assert EntriesOf(xs, SnapshotEntry) == rest;
      }
    }
  }

  lemma OneMoreEntry(e: Json, rest: seq<Json>)
    requires e.Obj?
    ensures EntriesOf([e] + rest, SnapshotEntry) == [SnapshotEntry(e.fields)] + EntriesOf(rest, SnapshotEntry)
    ensures EntriesOf([e] + rest, SnapshotEntry) == [e] + rest
      <==> SnapshotEntry(e.fields) == e && EntriesOf(rest, SnapshotEntry) == rest
  {
    assert ([e] + rest)[1..] == rest;
    var a, b := [SnapshotEntry(e.fields)] + EntriesOf(rest, SnapshotEntry), [e] + rest;
    if a == b {
      assert a[0] == b[0] && a[1..] == b[1..];
    }
  }

  lemma SnapshotsColumn(d: Raw, raw: Raw)
    requires SecondPass(d, raw)
    ensures Canonical(d, Snapshots) == Canonical(raw, Snapshots) <==> ColumnPasses(raw, Snapshots)
  {
    assert Get(d, ColumnKey(Snapshots)) == Canonical(raw, Snapshots);
    SnapshotsAgain(if Get(raw, "snapshots").List? then Get(raw, "snapshots").xs else []);
  }

  lemma ColumnAgain(d: Raw, raw: Raw, c: Column)
    requires SecondPass(d, raw)
    ensures Canonical(d, c) == Canonical(raw, c) <==> ColumnPasses(raw, c)
  {
    match c
    case Firmware => FirmwareColumn(d, raw);
    case Vcpu => CpuColumn(d, raw);
    case MemoryDynamic => MemoryFlag(d, raw);
    case MemoryBytes => MemorySize(d, raw);
    case MemoryDemandBytes => MemoryDemand(d, raw);
    case MemoryMinBytes | MemoryMaxBytes => MemoryBounds(d, raw, c);
    case CreatedAt => CreatedColumn(d, raw);
    case Disks => DiskColumn(d, raw);
    case Nics => NicsColumn(d, raw);
    case Snapshots => SnapshotsColumn(d, raw);
    case NestedVirtualization | HighlyAvailable | CpuUsagePercent => FlagColumns(d, raw, c);
    case AutoStartAction | AutoStartDelaySec | AutoStopAction => StartColumns(d, raw, c);
    case ConfigPath | DvdPath => PathColumns(d, raw, c);
    case _ => PlainColumns(d, raw, c);
  }

  lemma SameFields(d: Raw, raw: Raw)
    ensures NormalizeVm(d).fields == NormalizeVm(raw).fields <==> forall c :: Canonical(d, c) == Canonical(raw, c)
  {
    var a, b := NormalizeVm(d).fields, NormalizeVm(raw).fields;
    forall c ensures c in a && a[c] == Canonical(d, c) && c in b && b[c] == Canonical(raw, c) { assert c in ALL; }
  }

  lemma DictIsSecondPass(raw: Raw)
    ensures SecondPass(DictOf(NormalizeVm(raw)), raw)
    ensures NormalizeVm(DictOf(NormalizeVm(raw))).state == NormalizeVm(raw).state
    ensures NormalizeVm(DictOf(NormalizeVm(raw))).guid == None
  {
    var info := NormalizeVm(raw);
    DictReads(info);
    ForeignKeys();
    forall c ensures At(info.fields, c) == Canonical(raw, c) { assert c in ALL; }
  }

  /** The second pass always loses the GUID: it is read from "id" / "vmId" and written as "vmUuid". */
  lemma RenormalizingLosesGuid(raw: Raw)
    ensures NormalizeVm(DictOf(NormalizeVm(raw))).guid == None
  {
    DictIsSecondPass(raw);
  }

  lemma EveryColumnPasses(raw: Raw)
    ensures (forall c :: ColumnPasses(raw, c))
      <==> ColumnPasses(raw, MemoryMinBytes) && ColumnPasses(raw, MemoryMaxBytes)
           && ColumnPasses(raw, CreatedAt) && ColumnPasses(raw, Snapshots)
  {
  }

  lemma FieldsAgain(d: Raw, raw: Raw)
    requires SecondPass(d, raw)
    ensures NormalizeVm(d).fields == NormalizeVm(raw).fields <==> forall c :: ColumnPasses(raw, c)
  {
    SameFields(d, raw);
    forall c ensures Canonical(d, c) == Canonical(raw, c) <==> ColumnPasses(raw, c) {
      ColumnAgain(d, raw, c);
    }
  }

  lemma SameInfo(a: VmInfo, b: VmInfo)
    requires a.state == b.state
    ensures a == b <==> a.guid == b.guid && a.fields == b.fields
  {
  }

  /** Normalizing again changes nothing exactly for entries without a GUID, without a zero that
      only the memory object reports, and without a blank in place of a creation time or of a
      snapshot's parent. */
  lemma RenormalizingExactly(raw: Raw)
    ensures NormalizeVm(DictOf(NormalizeVm(raw))) == NormalizeVm(raw) <==> Passes(raw)
  {
    DictIsSecondPass(raw);
    FieldsAgain(DictOf(NormalizeVm(raw)), raw);
    EveryColumnPasses(raw);
    SameInfo(NormalizeVm(DictOf(NormalizeVm(raw))), NormalizeVm(raw));
  }

  // ---- one entry of each kind that does not pass ------------------------------------------------------

  lemma ChangedAgain(raw: Raw, c: Column)
    requires !ColumnPasses(raw, c)
    ensures NormalizeVm(DictOf(NormalizeVm(raw))) != NormalizeVm(raw)
  {
    RenormalizingExactly(raw);
    EveryColumnPasses(raw);
  }

  /** {"memory": {"minBytes": 0}}: the minimum is 0, and null the second time. */
  lemma NestedZeroDoesNotPass(key: string, nested: string)
    requires key == "memory" && nested == "minBytes"
    ensures var raw := map[key := Obj(map[nested := Num(0)])];
      NormalizeVm(DictOf(NormalizeVm(raw))) != NormalizeVm(raw)
  {
    var raw := map[key := Obj(map[nested := Num(0)])];
    assert |"memoryMinBytes"| == 14 && |key| == 6;
    assert Get(raw, "memoryMinBytes") == Null && ZeroOnlyNested(raw, "memoryMinBytes", "minBytes");
    ChangedAgain(raw, MemoryMinBytes);
  }

  /** {"creationTime": ""}: the creation date is "", and null the second time. */
  lemma BlankCreationDoesNotPass(key: string)
    requires key == "creationTime"
    ensures var raw := map[key := Str("")]; NormalizeVm(DictOf(NormalizeVm(raw))) != NormalizeVm(raw)
  {
    var raw := map[key := Str("")];
    assert |"createdAt"| == 9 && |key| == 12;
    assert BlankOnly(raw, "createdAt", "creationTime");
    ChangedAgain(raw, CreatedAt);
  }

  /** {"snapshots": [{"parentSnapshotId": ""}]}: the parent is "", and null the second time. */
  lemma BlankParentDoesNotPass(key: string, parent: string)
    requires key == "snapshots" && parent == "parentSnapshotId"
    ensures var raw := map[key := List([Obj(map[parent := Str("")])])];
      NormalizeVm(DictOf(NormalizeVm(raw))) != NormalizeVm(raw)
  {
    var s: Raw := map[parent := Str("")];
    var raw := map[key := List([Obj(s)])];
    assert |"parentId"| == 8 && |parent| == 16;
    assert BlankOnly(s, "parentId", "parentSnapshotId");
    assert Get(raw, "snapshots").xs[0] == Obj(s);
    ChangedAgain(raw, Snapshots);
  }
}
