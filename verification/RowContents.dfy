/** What a row holds after an entry has been copied onto it, read off the payload's own keys.
    Nothing here is said in terms of the functions that do the copying. */
module RowContents {
  import opened Wrappers
  import opened Model
  import opened VmRow

  // ---- reading a payload ------------------------------------------------------------------

  /** The value under a key; a missing key reads as null. */
  function Of(f: Raw, k: string): Json {
    if k in f then f[k] else Null
  }

  predicate Falsy(j: Json) {
    j == Null || j == Bool(false) || j == Num(0) || j == Str("") || j == List([]) || j == Obj(map[])
  }

  /** A member of the object under a key; null when there is no object. */
  function Inside(f: Raw, k: string, m: string): Json {
    if Of(f, k).Obj? then Of(Of(f, k).fields, m) else Null
  }

  /** The first of two keys whose value is not null. */
  function Either(f: Raw, a: string, b: string): Json {
    if Of(f, a) != Null then Of(f, a) else Of(f, b)
  }

  // A number, or a flag as 0 or 1; anything else is none.
  predicate IsNumber(j: Json, out: Json) {
    && (j.Num? ==> out == j)
    && (j.Bool? ==> out == Num(if j.b then 1 else 0))
    && (!j.Num? && !j.Bool? ==> out == Null)
  }

  predicate IsMebibytes(j: Json, out: Json) {
    && (j.Num? ==> out == Num(j.n * 1048576))
    && (j.Bool? ==> out == Num(if j.b then 1048576 else 0))
    && (!j.Num? && !j.Bool? ==> out == Null)
  }

  predicate AllBlank(s: string) {
    forall c :: c in s ==> Blank(c)
  }

  /** `t` is `s` without the blanks around it. */
  ghost predicate TrimmedTo(s: string, t: string) {
    && (t != "" ==> !Blank(t[0]) && !Blank(t[|t| - 1]))
    && exists before, after :: s == before + t + after && AllBlank(before) && AllBlank(after)
  }

  // A full entry reports every column; a status update those that one of its keys announces.
  predicate Says1(raw: Raw, partial: bool, a: string) {
    !partial || a in raw
  }

  predicate Says2(raw: Raw, partial: bool, a: string, b: string) {
    !partial || a in raw || b in raw
  }

  predicate Says4(raw: Raw, partial: bool, a: string, b: string, c: string, d: string) {
    !partial || a in raw || b in raw || c in raw || d in raw
  }

  // ---- names, guest OS, firmware, processors -------------------------------------------------

  /** The reported name; in a full entry else the name the row has, else its GUID. */
  ghost predicate NameHolds(raw: Raw, guid: Option<Guid>, partial: bool, held: Json, after: Json) {
    var name := Of(raw, "name");
    if !Falsy(name) then after == name
    else if partial || !Falsy(held) then after == held
    else after == if guid.Some? then Str(guid.value) else Null
  }

  ghost predicate MetricsHold(raw: Raw, held: Json, after: Json) {
    var flag := Of(raw, "metricsEnabled");
    after == if flag == Null then held else Bool(!Falsy(flag))
  }

  /** The trimmed guest OS cut to 255 characters; a blank or missing one keeps what is known. */
  ghost predicate GuestHolds(raw: Raw, held: Json, after: Json) {
    var os := Of(raw, "guestOs");
    if os.Str? && !AllBlank(os.s)
    then exists t :: TrimmedTo(os.s, t) && t != "" && after == Str(if |t| > 255 then t[..255] else t)
    else after == held
  }

  // The four letters in either case.
  predicate IsBios(s: string) {
    |s| == 4 && s[0] in {'B', 'b'} && s[1] in {'I', 'i'} && s[2] in {'O', 'o'} && s[3] in {'S', 's'}
  }

  predicate IsUefi(s: string) {
    |s| == 4 && s[0] in {'U', 'u'} && s[1] in {'E', 'e'} && s[2] in {'F', 'f'} && s[3] in {'I', 'i'}
  }

  /** BIOS or UEFI as reported, else BIOS for generation 1, else UEFI. */
  ghost predicate FirmwareHolds(raw: Raw, partial: bool, held: Json, after: Json) {
    var fw := Of(raw, "firmware");
    if !Says2(raw, partial, "firmware", "generation") then after == held
    else if fw.Str? && IsBios(fw.s) then after == Str("BIOS")
    else if fw.Str? && IsUefi(fw.s) then after == Str("UEFI")
    else after == Str(if Of(raw, "generation") in {Num(1), Bool(true)} then "BIOS" else "UEFI")
  }

  /** The flat count, else the one inside the cpu object, else what is held (in a status
      update), and never less than one processor for want of a number. */
  ghost predicate VcpuHolds(raw: Raw, partial: bool, held: Json, after: Json) {
    var given := if Of(raw, "vcpu") != Null then Of(raw, "vcpu") else Inside(raw, "cpu", "vcpus");
    var count := if !Falsy(given) then given else if partial then held else Num(1);
    if !Says2(raw, partial, "vcpu", "cpu") then after == held
    else if count.Num? && count.n != 0 then after == count
    else after == Num(1)
  }

  // ---- memory ------------------------------------------------------------------------------------

  ghost predicate MemoryFlagHolds(raw: Raw, partial: bool, held: Json, after: Json) {
    if !Says2(raw, partial, "memoryDynamic", "memory") then after == held
    else after == Bool(!Falsy(Of(raw, "memoryDynamic")) || !Falsy(Inside(raw, "memory", "dynamic")))
  }

  /** Bytes as reported flat or assigned, else mebibytes, else 0. */
  ghost predicate MemoryHolds(raw: Raw, partial: bool, held: Json, after: Json) {
    var flat, inside := Of(raw, "memoryBytes"), Inside(raw, "memory", "assignedBytes");
    if !Says4(raw, partial, "memoryBytes", "memoryMb", "memoryMB", "memory") then after == held
    else exists out ::
      && (if !Falsy(flat) then IsNumber(flat, out)
          else if inside != Null then IsNumber(inside, out)
          else IsMebibytes(Either(raw, "memoryMb", "memoryMB"), out))
      && after == if out == Null then Num(0) else out
  }

  ghost predicate BoundHolds(raw: Raw, partial: bool, key: string, inside: string, held: Json, after: Json) {
    if !Says2(raw, partial, key, "memory") then after == held
    else IsNumber(if !Falsy(Of(raw, key)) then Of(raw, key) else Inside(raw, "memory", inside), after)
  }

  ghost predicate DemandHolds(raw: Raw, partial: bool, held: Json, after: Json) {
    if !Says2(raw, partial, "memoryDemandBytes", "memoryConsumedMb") then after == held
    else if Of(raw, "memoryDemandBytes") != Null then IsNumber(Of(raw, "memoryDemandBytes"), after)
    else IsMebibytes(Of(raw, "memoryConsumedMb"), after)
  }

  // ---- columns that take one or two keys -----------------------------------------------------------

  ghost predicate ValueHolds(raw: Raw, partial: bool, key: string, held: Json, after: Json) {
    after == if Says1(raw, partial, key) then Of(raw, key) else held
  }

  ghost predicate EitherHolds(raw: Raw, partial: bool, a: string, b: string, held: Json, after: Json) {
    after == if Says2(raw, partial, a, b) then Either(raw, a, b) else held
  }

  ghost predicate EitherFlagHolds(raw: Raw, partial: bool, a: string, b: string, held: Json, after: Json) {
    after == if Says2(raw, partial, a, b) then Bool(!Falsy(Either(raw, a, b))) else held
  }

  ghost predicate EitherNumberHolds(raw: Raw, partial: bool, a: string, b: string, held: Json, after: Json) {
    if Says2(raw, partial, a, b) then IsNumber(Either(raw, a, b), after) else after == held
  }

  ghost predicate TemplateHolds(raw: Raw, partial: bool, held: Json, after: Json) {
    var template := Of(raw, "secureBootTemplate");
    after == if !Says1(raw, partial, "secureBootTemplate") then held else if Falsy(template) then Null else template
  }

  /** The first of the two dates that is not blank; without one, what is known. */
  ghost predicate CreatedHolds(raw: Raw, partial: bool, held: Json, after: Json) {
    var a, b := Of(raw, "createdAt"), Of(raw, "creationTime");
    after == if !Says2(raw, partial, "createdAt", "creationTime") then held
             else if !Falsy(a) then a else if !Falsy(b) then b else held
  }

  // ---- lists of entries ------------------------------------------------------------------------------

  /** Each object of `xs` in turn, and nothing else, is told by one entry of `ys`. */
  ghost predicate EntriesTell(xs: seq<Json>, ys: seq<Json>, tells: (Raw, Json) -> bool)
    decreases |xs|
  {
    if xs == [] then ys == []
    else if xs[0].Obj? then ys != [] && tells(xs[0].fields, ys[0]) && EntriesTell(xs[1..], ys[1..], tells)
    else EntriesTell(xs[1..], ys, tells)
  }

  ghost predicate ListTells(j: Json, out: Json, tells: (Raw, Json) -> bool) {
    out.List? && EntriesTell(if j.List? then j.xs else [], out.xs, tells)
  }

  function OrElse(j: Json, other: Json): Json {
    if Falsy(j) then other else j
  }

  // The value under a key, or `absent` when the key is missing (null is a value).
  function Under(f: Raw, k: string, absent: Json): Json {
    if k in f then f[k] else absent
  }

  ghost predicate DiskTells(v: Raw, e: Json) {
    && e.Obj? && e.fields.Keys == {"id", "path", "controller", "sizeBytes", "usedBytes", "type", "format"}
    && e.fields["id"] == OrElse(Of(v, "diskId"), OrElse(Of(v, "id"), Str("")))
    && e.fields["path"] == Under(v, "path", Str("")) && e.fields["controller"] == Under(v, "controller", Str(""))
    && (Of(v, "sizeGb").Num? ==> e.fields["sizeBytes"] == Num(Of(v, "sizeGb").n * 1073741824))
    && (Falsy(Of(v, "sizeGb")) ==> e.fields["sizeBytes"] == Num(0))
    && IsNumber(Of(v, "usedBytes"), e.fields["usedBytes"])
    && e.fields["type"] == OrElse(Of(v, "type"), Str(""))
    && (Falsy(Of(v, "format")) ==> e.fields["format"] == Str(""))
    && (Of(v, "format").Str? ==> e.fields["format"].Str? && InCapitals(Of(v, "format").s, e.fields["format"].s))
  }

  predicate InCapitals(s: string, t: string) {
    |t| == |s| && forall i :: 0 <= i < |s| ==> t[i] == if 'a' <= s[i] <= 'z' then s[i] - 'a' + 'A' else s[i]
  }

  /** The addresses: the list without blanks, or the pieces of the text between separators. */
  ghost predicate AddressesTell(j: Json, out: Json) {
    && out.List?
    && (j.List? ==> KeepsTruthy(j.xs, out.xs))
    && (j.Str? ==> SplitInto(j.s, out.xs))
    && (!j.List? && !j.Str? ==> out.xs == [])
  }

  predicate KeepsTruthy(xs: seq<Json>, ys: seq<Json>)
    decreases |xs|
  {
    if xs == [] then ys == []
    else if Falsy(xs[0]) then KeepsTruthy(xs[1..], ys)
    else ys != [] && ys[0] == xs[0] && KeepsTruthy(xs[1..], ys[1..])
  }

  predicate Separates(c: char) {
    c == ',' || c == ';' || Blank(c)
  }

  /** Separators, a piece without any, and the rest, which is empty or starts with a separator. */
  ghost predicate SplitInto(s: string, pieces: seq<Json>)
    decreases |pieces|
  {
    if pieces == [] then forall c :: c in s ==> Separates(c)
    else
      exists gap, piece, rest :: s == gap + piece + rest && (forall c :: c in gap ==> Separates(c))
        && piece != "" && (forall c :: c in piece ==> !Separates(c)) && (rest == "" || Separates(rest[0]))
        && pieces[0] == Str(piece) && SplitInto(rest, pieces[1..])
  }

  ghost predicate NicTells(n: Raw, e: Json) {
    && e.Obj? && e.fields.Keys == {"id", "name", "switchName", "vlanId", "macAddress", "ipAddresses", "connected"}
    && e.fields["id"] == Under(n, "id", Str("")) && e.fields["name"] == Under(n, "name", Str(""))
    && e.fields["switchName"] == OrElse(Of(n, "switchName"), OrElse(Of(n, "networkId"), Str("")))
    && e.fields["vlanId"] == Of(n, "vlanId") && e.fields["macAddress"] == Under(n, "macAddress", Str(""))
    && e.fields["connected"] == Bool(!Falsy(Under(n, "connected", Bool(true))))
    && AddressesTell(Of(n, "ipAddresses"), e.fields["ipAddresses"])
  }

  ghost predicate SnapshotTells(s: Raw, e: Json) {
    && e.Obj? && e.fields.Keys == {"id", "name", "parentId", "type", "createdAt"}
    && e.fields["id"] == OrElse(Of(s, "id"), OrElse(Of(s, "snapshotId"), Str("")))
    && e.fields["name"] == Under(s, "name", Str(""))
    && e.fields["parentId"] == OrElse(Of(s, "parentId"), Of(s, "parentSnapshotId"))
    && e.fields["type"] == OrElse(Of(s, "type"), OrElse(Of(s, "snapshotType"), Null))
    && e.fields["createdAt"] == OrElse(Of(s, "createdAt"), Of(s, "creationTime"))
  }

  /** The canonical list, else one entry for each of the agent's disks. */
  ghost predicate DisksHold(raw: Raw, partial: bool, held: Json, after: Json) {
    if !Says2(raw, partial, "disks", "vhds") then after == held
    else if Of(raw, "disks") != Null then after == Of(raw, "disks")
    else ListTells(Of(raw, "vhds"), after, DiskTells)
  }

  /** A list already in canonical form (its first entry names a switch) is taken as it is. */
  ghost predicate NicsHold(raw: Raw, partial: bool, held: Json, after: Json) {
    var nics := Of(raw, "nics");
    if !Says1(raw, partial, "nics") then after == held
    else if Falsy(nics) then after == List([])
    else if nics.List? && nics.xs[0].Obj? && "switchName" !in nics.xs[0].fields then ListTells(nics, after, NicTells)
    else after == nics
  }

  ghost predicate SnapshotsHold(raw: Raw, partial: bool, held: Json, after: Json) {
    if !Says1(raw, partial, "snapshots") then after == held
    else ListTells(Of(raw, "snapshots"), after, SnapshotTells)
  }

  // ---- every column -------------------------------------------------------------------------------

  /** What column `c` holds after the entry, given what it held before. */
  ghost predicate ColumnHolds(raw: Raw, guid: Option<Guid>, partial: bool, c: Column, held: Json, after: Json) {
    match c
    case Name => NameHolds(raw, guid, partial, held, after)
    case MetricsEnabled => MetricsHold(raw, held, after)
    case GuestOs => GuestHolds(raw, held, after)
    case Firmware => FirmwareHolds(raw, partial, held, after)
    case Vcpu => VcpuHolds(raw, partial, held, after)
    case MemoryDynamic => MemoryFlagHolds(raw, partial, held, after)
    case NestedVirtualization => EitherFlagHolds(raw, partial, "nestedVirtualization", "nested", held, after)
    case HighlyAvailable => EitherFlagHolds(raw, partial, "highlyAvailable", "ha", held, after)
    case UptimeSec => ValueHolds(raw, partial, "uptimeSec", held, after)
    case MemoryBytes => MemoryHolds(raw, partial, held, after)
    case MemoryMinBytes => BoundHolds(raw, partial, "memoryMinBytes", "minBytes", held, after)
    case MemoryMaxBytes => BoundHolds(raw, partial, "memoryMaxBytes", "maxBytes", held, after)
    case MemoryDemandBytes => DemandHolds(raw, partial, held, after)
    case CpuUsagePercent => EitherNumberHolds(raw, partial, "cpuUsagePercent", "cpuUsagePct", held, after)
    case SecureBoot => ValueHolds(raw, partial, "secureBoot", held, after)
    case SecureBootTemplate => TemplateHolds(raw, partial, held, after)
    case AutoStartAction => EitherHolds(raw, partial, "autoStartAction", "automaticStart", held, after)
    case AutoStartDelaySec => EitherNumberHolds(raw, partial, "autoStartDelaySec", "automaticStartDelay", held, after)
    case AutoStopAction => EitherHolds(raw, partial, "autoStopAction", "automaticStop", held, after)
    case ConfigPath => EitherHolds(raw, partial, "configPath", "path", held, after)
    case DvdPath => EitherHolds(raw, partial, "dvdPath", "dvd", held, after)
    case Notes => ValueHolds(raw, partial, "notes", held, after)
    case CreatedAt => CreatedHolds(raw, partial, held, after)
    case Disks => DisksHold(raw, partial, held, after)
    case Nics => NicsHold(raw, partial, held, after)
    case Snapshots => SnapshotsHold(raw, partial, held, after)
  }

  /** The state: as reported; in a full entry without one, Unknown. */
  predicate StateHolds(raw: Raw, partial: bool, held: string, after: string) {
    var said := Of(raw, "state");
    if said.Str? && said.s != "" then after == said.s
    else if !partial then after == "Unknown"
    else after == if "state" !in raw && "powerState" in raw then "Unknown" else held
  }

  /** Row `after` is row `before` with the entry copied onto it by host `host`. */
  ghost predicate Holds(before: Vm, after: Vm, raw: Raw, host: Id, cluster: Option<Id>, partial: bool, now: Time) {
    && after.guid == before.guid && after.folder == before.folder && after.tags == before.tags
    && after.host == host && after.cluster == cluster && after.inventoriedAt == Some(now)
    && StateHolds(raw, partial, before.state, after.state)
    && forall c :: ColumnHolds(raw, before.guid, partial, c, At(before.columns, c), At(after.columns, c))
  }
}
