/** Copying an entry onto a row leaves the row holding what the entry's keys say. */
module RowContentsLaws {
  import opened Wrappers
  import opened Model
  import opened VmRow
  import opened VmRowLaws
  import opened RowContents

  // ---- the two ways of reading agree ------------------------------------------------------

  lemma ReadsAgree(f: Raw, k: string)
    ensures Get(f, k) == Of(f, k)
  {
  }

  lemma TruthAgrees(j: Json)
    ensures Truthy(j) <==> !Falsy(j)
  {
  }

  lemma FirstAgrees(f: Raw, a: string, b: string)
    ensures First(f, [a]) == Of(f, a)
    ensures First(f, [a, b]) == Either(f, a, b)
  {
    assert [a][1..] == [] && [b][1..] == [] && [a, b][1..] == [b];
    assert First(f, [b]) == Of(f, b);
  }

  lemma NumberAgrees(j: Json)
    ensures IsNumber(j, AsInt(j)) && IsMebibytes(j, MibToBytes(j))
  {
  }

  lemma MemberAgrees(f: Raw, k: string, m: string)
    ensures Member(Get(f, k), m) == Inside(f, k, m)
  {
  }

  lemma SignalOne(raw: Raw, c: Column, a: string)
    requires Signals(c) == [a]
    ensures Signalled(raw, c) <==> a in raw
  {
    assert Signals(c)[0] in Signals(c);
  }

  lemma SignalTwo(raw: Raw, c: Column, a: string, b: string)
    requires Signals(c) == [a, b]
    ensures Signalled(raw, c) <==> a in raw || b in raw
  {
    assert Signals(c)[0] in Signals(c) && Signals(c)[1] in Signals(c);
  }

  lemma SignalFour(raw: Raw, c: Column, a: string, b: string, d: string, e: string)
    requires Signals(c) == [a, b, d, e]
    ensures Signalled(raw, c) <==> a in raw || b in raw || d in raw || e in raw
  {
    assert Signals(c)[0] in Signals(c) && Signals(c)[1] in Signals(c) && Signals(c)[2] in Signals(c) && Signals(c)[3] in Signals(c);
  }

  // What column `c` holds afterwards.
  function After(raw: Raw, partial: bool, guid: Option<Guid>, c: Column, held: Json): Json {
    var p := PatchOf(raw, partial);
    if Writes(p, c) then Written(p, c, held, guid) else held
  }

  // The columns that are simply overwritten where they are reported.
  predicate Ordinary(c: Column) {
    !c.Name? && !c.MetricsEnabled? && !c.GuestOs? && !c.Vcpu? && !c.CreatedAt?
  }

  lemma Overwritten(p: Patch, c: Column, held: Json, guid: Option<Guid>)
    requires Ordinary(c)
    ensures (if Writes(p, c) then Written(p, c, held, guid) else held) == if c in p.reported then At(p.fields, c) else held
  {
  }

  // For most columns: the canonical value where it is reported.
  lemma AfterIs(raw: Raw, partial: bool, guid: Option<Guid>, c: Column, held: Json)
    requires Ordinary(c)
    ensures After(raw, partial, guid, c, held) == if !partial || Signalled(raw, c) then Canonical(raw, c) else held
  {
    Overwritten(PatchOf(raw, partial), c, held, guid);
    CanonicalField(raw, partial, c);
  }

  lemma CanonicalField(raw: Raw, partial: bool, c: Column)
    ensures At(PatchOf(raw, partial).fields, c) == Canonical(raw, c)
    ensures c in PatchOf(raw, partial).reported <==> !partial || Signalled(raw, c)
  {
    assert c in ALL;
  }

  // ---- column by column --------------------------------------------------------------------

  lemma NameColumn(raw: Raw, partial: bool, guid: Option<Guid>, held: Json)
    ensures NameHolds(raw, guid, partial, held, After(raw, partial, guid, Name, held))
  {
    CanonicalField(raw, partial, Name);
    SignalOne(raw, Name, "name");
    TruthAgrees(Of(raw, "name"));
    TruthAgrees(held);
  }

  lemma MetricsColumn(raw: Raw, partial: bool, guid: Option<Guid>, held: Json)
    ensures MetricsHold(raw, held, After(raw, partial, guid, MetricsEnabled, held))
  {
    CanonicalField(raw, partial, MetricsEnabled);
    TruthAgrees(Of(raw, "metricsEnabled"));
  }

  lemma {:induction false} LStripped(s: string) returns (before: string)
    ensures s == before + LStrip(s) && AllBlank(before) && (LStrip(s) != "" ==> !Blank(LStrip(s)[0]))
  {
    before := "";
    if s != "" && Blank(s[0]) {
      var rest := LStripped(s[1..]);
      before := [s[0]] + rest;
      assert s == [s[0]] + s[1..];
    }
  }

  lemma {:induction false} RStripped(s: string) returns (after: string)
    ensures s == RStrip(s) + after && AllBlank(after)
    ensures RStrip(s) != "" ==> !Blank(RStrip(s)[|RStrip(s)| - 1]) && s != "" && RStrip(s)[0] == s[0]
    decreases |s|
  {
    after := "";
    if s != "" && Blank(s[|s| - 1]) {
      var rest := RStripped(s[..|s| - 1]);
      after := rest + [s[|s| - 1]];
      assert s == s[..|s| - 1] + [s[|s| - 1]];
    }
  }

  lemma StripTrims(s: string)
    ensures TrimmedTo(s, Strip(s)) && (Strip(s) == "" <==> AllBlank(s))
  {
    var before := LStripped(s);
    var after := RStripped(LStrip(s));
    assert s == before + Strip(s) + after;
    if Strip(s) != "" { assert Strip(s)[0] in s; }
  }

  lemma GuestText(s: string)
    ensures Strip(s) == "" <==> AllBlank(s)
    ensures !AllBlank(s) ==>
      exists t :: TrimmedTo(s, t) && t != "" && Clip(Strip(s)) == if |t| > 255 then t[..255] else t
  {
    StripTrims(s);
    var t := Strip(s);
    assert TrimmedTo(s, t);
  }

  lemma GuestColumn(raw: Raw, partial: bool, guid: Option<Guid>, held: Json)
    ensures GuestHolds(raw, held, After(raw, partial, guid, GuestOs, held))
  {
    var os := Of(raw, "guestOs");
    GuestValue(raw, partial, guid, held, os);
    if os.Str? && !AllBlank(os.s) {
      GuestText(os.s);
      var t :| TrimmedTo(os.s, t) && t != "" && Clip(Strip(os.s)) == if |t| > 255 then t[..255] else t;
    } else if os.Str? {
      GuestText(os.s);
    }
  }

  lemma GuestValue(raw: Raw, partial: bool, guid: Option<Guid>, held: Json, os: Json)
    requires os == Of(raw, "guestOs")
    ensures After(raw, partial, guid, GuestOs, held) == if os.Str? && Strip(os.s) != "" then Str(Clip(Strip(os.s))) else held
  {
    CanonicalField(raw, partial, GuestOs);
  }

  lemma VcpuColumn(raw: Raw, partial: bool, guid: Option<Guid>, held: Json)
    ensures VcpuHolds(raw, partial, held, After(raw, partial, guid, Vcpu, held))
  {
    CanonicalField(raw, partial, Vcpu);
    SignalTwo(raw, Vcpu, "vcpu", "cpu");
    MemberAgrees(raw, "cpu", "vcpus");
    TruthAgrees(Canonical(raw, Vcpu));
  }

  lemma MemoryFlagColumn(raw: Raw, partial: bool, guid: Option<Guid>, held: Json)
    ensures MemoryFlagHolds(raw, partial, held, After(raw, partial, guid, MemoryDynamic, held))
  {
    AfterIs(raw, partial, guid, MemoryDynamic, held);
    SignalTwo(raw, MemoryDynamic, "memoryDynamic", "memory");
    MemberAgrees(raw, "memory", "dynamic");
    TruthAgrees(Of(raw, "memoryDynamic"));
    TruthAgrees(Inside(raw, "memory", "dynamic"));
  }

  lemma MemoryColumn(raw: Raw, partial: bool, guid: Option<Guid>, held: Json)
    ensures MemoryHolds(raw, partial, held, After(raw, partial, guid, MemoryBytes, held))
  {
    AfterIs(raw, partial, guid, MemoryBytes, held);
    SignalFour(raw, MemoryBytes, "memoryBytes", "memoryMb", "memoryMB", "memory");
    MemberAgrees(raw, "memory", "assignedBytes");
    FirstAgrees(raw, "memoryBytes", "");
    FirstAgrees(raw, "memoryMb", "memoryMB");
    var flat, inside, mib := Of(raw, "memoryBytes"), Inside(raw, "memory", "assignedBytes"), Either(raw, "memoryMb", "memoryMB");
    TruthAgrees(flat);
    NumberAgrees(flat);
    NumberAgrees(inside);
    NumberAgrees(mib);
    MemoryValue(flat, inside, mib, MemoryBytesOf(raw));
  }

  lemma MemoryValue(flat: Json, inside: Json, mib: Json, value: Json)
    requires value == (var direct := if !Falsy(flat) then flat else inside;
                       Or(AsInt(if direct == Null then MibToBytes(mib) else direct), Num(0)))
    ensures exists out ::
      && (if !Falsy(flat) then IsNumber(flat, out) else if inside != Null then IsNumber(inside, out) else IsMebibytes(mib, out))
      && value == if out == Null then Num(0) else out
  {
    var out := if !Falsy(flat) then AsInt(flat) else if inside != Null then AsInt(inside) else MibToBytes(mib);
    NumberAgrees(flat);
    NumberAgrees(inside);
    NumberAgrees(mib);
    assert out == Null || out.Num?;
  }

  lemma BoundColumns(raw: Raw, partial: bool, guid: Option<Guid>, held: Json)
    ensures BoundHolds(raw, partial, "memoryMinBytes", "minBytes", held, After(raw, partial, guid, MemoryMinBytes, held))
    ensures BoundHolds(raw, partial, "memoryMaxBytes", "maxBytes", held, After(raw, partial, guid, MemoryMaxBytes, held))
  {
    AfterIs(raw, partial, guid, MemoryMinBytes, held);
    AfterIs(raw, partial, guid, MemoryMaxBytes, held);
    SignalTwo(raw, MemoryMinBytes, "memoryMinBytes", "memory");
    SignalTwo(raw, MemoryMaxBytes, "memoryMaxBytes", "memory");
    FirstAgrees(raw, "memoryMinBytes", "");
    FirstAgrees(raw, "memoryMaxBytes", "");
    MemberAgrees(raw, "memory", "minBytes");
    MemberAgrees(raw, "memory", "maxBytes");
    TruthAgrees(Of(raw, "memoryMinBytes"));
    TruthAgrees(Of(raw, "memoryMaxBytes"));
  }

  lemma DemandColumn(raw: Raw, partial: bool, guid: Option<Guid>, held: Json)
    ensures DemandHolds(raw, partial, held, After(raw, partial, guid, MemoryDemandBytes, held))
  {
    AfterIs(raw, partial, guid, MemoryDemandBytes, held);
    SignalTwo(raw, MemoryDemandBytes, "memoryDemandBytes", "memoryConsumedMb");
    FirstAgrees(raw, "memoryDemandBytes", "");
    FirstAgrees(raw, "memoryConsumedMb", "");
    NumberAgrees(Of(raw, "memoryConsumedMb"));
  }

  // ---- one key, or two -----------------------------------------------------------------------

  lemma ValueColumn(raw: Raw, partial: bool, guid: Option<Guid>, c: Column, key: string, held: Json)
    requires Ordinary(c)
    requires Signals(c) == [key] && Canonical(raw, c) == Of(raw, key)
    ensures ValueHolds(raw, partial, key, held, After(raw, partial, guid, c, held))
  {
    AfterIs(raw, partial, guid, c, held);
    SignalOne(raw, c, key);
  }

  lemma EitherColumn(raw: Raw, partial: bool, guid: Option<Guid>, c: Column, a: string, b: string, held: Json)
    requires Ordinary(c)
    requires Signals(c) == [a, b] && Canonical(raw, c) == First(raw, [a, b])
    ensures EitherHolds(raw, partial, a, b, held, After(raw, partial, guid, c, held))
  {
    AfterIs(raw, partial, guid, c, held);
    SignalTwo(raw, c, a, b);
    FirstAgrees(raw, a, b);
  }

  lemma EitherFlagColumn(raw: Raw, partial: bool, guid: Option<Guid>, c: Column, a: string, b: string, held: Json)
    requires Ordinary(c)
    requires Signals(c) == [a, b] && Canonical(raw, c) == AsBool(First(raw, [a, b]))
    ensures EitherFlagHolds(raw, partial, a, b, held, After(raw, partial, guid, c, held))
  {
    AfterIs(raw, partial, guid, c, held);
    SignalTwo(raw, c, a, b);
    FirstAgrees(raw, a, b);
    TruthAgrees(Either(raw, a, b));
  }

  lemma EitherNumberColumn(raw: Raw, partial: bool, guid: Option<Guid>, c: Column, a: string, b: string, held: Json)
    requires Ordinary(c)
    requires Signals(c) == [a, b] && Canonical(raw, c) == AsInt(First(raw, [a, b]))
    ensures EitherNumberHolds(raw, partial, a, b, held, After(raw, partial, guid, c, held))
  {
    AfterIs(raw, partial, guid, c, held);
    SignalTwo(raw, c, a, b);
    FirstAgrees(raw, a, b);
    NumberAgrees(Either(raw, a, b));
  }

  lemma TemplateColumn(raw: Raw, partial: bool, guid: Option<Guid>, held: Json)
    ensures TemplateHolds(raw, partial, held, After(raw, partial, guid, SecureBootTemplate, held))
  {
    AfterIs(raw, partial, guid, SecureBootTemplate, held);
    SignalOne(raw, SecureBootTemplate, "secureBootTemplate");
    TruthAgrees(Of(raw, "secureBootTemplate"));
  }

  lemma CreatedColumn(raw: Raw, partial: bool, guid: Option<Guid>, held: Json)
    ensures CreatedHolds(raw, partial, held, After(raw, partial, guid, CreatedAt, held))
  {
    CanonicalField(raw, partial, CreatedAt);
    SignalTwo(raw, CreatedAt, "createdAt", "creationTime");
    TruthAgrees(Of(raw, "createdAt"));
    TruthAgrees(Of(raw, "creationTime"));
  }

  // ---- firmware ---------------------------------------------------------------------------------

  function Capital(c: char): char {
    if 'a' <= c <= 'z' then c - 'a' + 'A' else c
  }

  lemma {:induction false} UpperIsCapitals(s: string)
    ensures InCapitals(s, Upper(s))
  {
    if s != "" { UpperIsCapitals(s[1..]); }
  }

  lemma SpelledBios(s: string, fw: string, bios: string, uefi: string)
    requires InCapitals(s, fw) && bios == "BIOS" && uefi == "UEFI"
    ensures (fw == bios <==> IsBios(s)) && (fw == uefi <==> IsUefi(s))
  {
    assert |bios| == 4 && bios[0] == 'B' && bios[1] == 'I' && bios[2] == 'O' && bios[3] == 'S';
    assert |uefi| == 4 && uefi[0] == 'U' && uefi[1] == 'E' && uefi[2] == 'F' && uefi[3] == 'I';
    if IsBios(s) { assert fw == bios; }
    if IsUefi(s) { assert fw == uefi; }
  }

  lemma FirmwareColumn(raw: Raw, partial: bool, guid: Option<Guid>, held: Json)
    ensures FirmwareHolds(raw, partial, held, After(raw, partial, guid, Firmware, held))
  {
    AfterIs(raw, partial, guid, Firmware, held);
    SignalTwo(raw, Firmware, "firmware", "generation");
    FirmwareReads(raw);
  }

  lemma FirmwareReads(raw: Raw)
    ensures FirmwareHolds(raw, false, Null, FirmwareOf(raw))
  {
    var given := Of(raw, "firmware");
    if given.Str? {
      UpperIsCapitals(given.s);
      SpelledBios(given.s, Upper(given.s), "BIOS", "UEFI");
    }
  }

  // ---- lists ------------------------------------------------------------------------------------

  lemma {:induction false} EntriesAreTold(xs: seq<Json>, entry: Raw -> Json, tells: (Raw, Json) -> bool)
    requires forall f :: tells(f, entry(f))
    ensures EntriesTell(xs, EntriesOf(xs, entry), tells)
  {
    if xs != [] {
      EntriesAreTold(xs[1..], entry, tells);
      if xs[0].Obj? {
        assert EntriesOf(xs, entry)[1..] == EntriesOf(xs[1..], entry);
      } else {
        assert EntriesOf(xs, entry) == EntriesOf(xs[1..], entry);
      }
    }
  }

  lemma OrAgrees()
    ensures forall a, b :: Or(a, b) == OrElse(a, b)
  {
    forall a, b ensures Or(a, b) == OrElse(a, b) { TruthAgrees(a); }
  }

  lemma SnapshotIsTold(f: Raw)
    ensures SnapshotTells(f, SnapshotEntry(f))
  {
    SnapshotShape(f);
    OrAgrees();
  }

  lemma SnapshotShape(f: Raw)
    ensures var e := SnapshotEntry(f);
      && e.Obj? && e.fields.Keys == {"id", "name", "parentId", "type", "createdAt"}
      && e.fields["id"] == Or(Of(f, "id"), Or(Of(f, "snapshotId"), Str(""))) && e.fields["name"] == Under(f, "name", Str(""))
      && e.fields["parentId"] == Or(Of(f, "parentId"), Of(f, "parentSnapshotId"))
      && e.fields["type"] == Or(Of(f, "type"), Or(Of(f, "snapshotType"), Null))
      && e.fields["createdAt"] == Or(Of(f, "createdAt"), Of(f, "creationTime"))
  {
  }

  lemma DiskSizes(v: Raw)
    ensures var gib, size := Of(v, "sizeGb"), DiskEntry(v).fields["sizeBytes"];
      (gib.Num? ==> size == Num(gib.n * 1073741824)) && (Falsy(gib) ==> size == Num(0))
  {
    TruthAgrees(Of(v, "sizeGb"));
  }

  lemma DiskFormat(v: Raw)
    ensures var format, out := Of(v, "format"), DiskEntry(v).fields["format"];
      (Falsy(format) ==> out == Str("")) && (format.Str? ==> out.Str? && InCapitals(format.s, out.s))
  {
    TruthAgrees(Of(v, "format"));
    if Of(v, "format").Str? { UpperIsCapitals(Of(v, "format").s); }
  }

  lemma DiskIsTold(v: Raw)
    ensures DiskTells(v, DiskEntry(v))
  {
    OrAgrees();
    NumberAgrees(Of(v, "usedBytes"));
    DiskSizes(v);
    DiskFormat(v);
  }

  lemma {:induction false} TruthyKept(xs: seq<Json>)
    ensures KeepsTruthy(xs, TruthyOf(xs))
  {
    if xs != [] {
      TruthyKept(xs[1..]);
      TruthAgrees(xs[0]);
      if Truthy(xs[0]) {
        assert TruthyOf(xs)[1..] == TruthyOf(xs[1..]);
      } else {
        assert TruthyOf(xs) == TruthyOf(xs[1..]);
      }
    }
  }

  // The pieces of `s` when `piece` has just been read before it.
  lemma {:induction false} PiecesSplit(s: string, piece: string)
    requires forall c :: c in piece ==> !Separates(c)
    ensures SplitInto(piece + s, Pieces(s, piece))
    decreases |s|
  {
    if s == "" {
      EndOfText(piece);
      assert piece + s == piece;
    } else if IpSeparator(s[0]) {
      PiecesSplit(s[1..], "");
      assert "" + s[1..] == s[1..];
      PieceEnds(s, piece, Pieces(s[1..], ""));
    } else {
      PiecesSplit(s[1..], piece + [s[0]]);
      assert piece + [s[0]] + s[1..] == piece + s;
    }
  }

  lemma EndOfText(piece: string)
    requires forall c :: c in piece ==> !Separates(c)
    ensures SplitInto(piece, if piece == "" then [] else [Str(piece)])
  {
    if piece != "" {
      OnePiece("", piece, "", []);
      assert "" + piece + "" == piece && [Str(piece)] + [] == [Str(piece)];
    }
  }

  lemma PieceEnds(s: string, piece: string, others: seq<Json>)
    requires s != "" && Separates(s[0]) && (forall c :: c in piece ==> !Separates(c)) && SplitInto(s[1..], others)
    ensures SplitInto(piece + s, (if piece == "" then [] else [Str(piece)]) + others)
  {
    SeparatorFirst(s, others);
    if piece == "" {
      assert piece + s == s && [] + others == others;
    } else {
      OnePiece("", piece, s, others);
      assert "" + piece + s == piece + s;
    }
  }

  lemma OnePiece(gap: string, piece: string, rest: string, others: seq<Json>)
    requires forall c :: c in gap ==> Separates(c)
    requires piece != "" && (forall c :: c in piece ==> !Separates(c)) && (rest == "" || Separates(rest[0]))
    requires SplitInto(rest, others)
    ensures SplitInto(gap + piece + rest, [Str(piece)] + others)
  {
    assert ([Str(piece)] + others)[1..] == others;
  }

  lemma LongerGap(s: string, gap: string, piece: string, rest: string)
    requires s != "" && Separates(s[0]) && s[1..] == gap + piece + rest && forall c :: c in gap ==> Separates(c)
    ensures s == [s[0]] + gap + piece + rest && forall c :: c in [s[0]] + gap ==> Separates(c)
  {
    assert s == [s[0]] + s[1..];
  }

  lemma SeparatorFirst(s: string, pieces: seq<Json>)
    requires s != "" && Separates(s[0]) && SplitInto(s[1..], pieces)
    ensures SplitInto(s, pieces)
  {
    if pieces == [] {
      assert s == [s[0]] + s[1..];
    } else {
      var gap, piece, rest :| s[1..] == gap + piece + rest && (forall c :: c in gap ==> Separates(c))
        && piece != "" && (forall c :: c in piece ==> !Separates(c)) && (rest == "" || Separates(rest[0]))
        && pieces[0] == Str(piece) && SplitInto(rest, pieces[1..]);
      LongerGap(s, gap, piece, rest);
      OnePiece([s[0]] + gap, piece, rest, pieces[1..]);
      assert [Str(piece)] + pieces[1..] == pieces;
    }
  }

  lemma AddressesAreTold(j: Json)
    ensures AddressesTell(j, SplitIps(j))
  {
    if j.List? { TruthyKept(j.xs); }
    if j.Str? {
      PiecesSplit(j.s, "");
      assert "" + j.s == j.s;
    }
  }

  lemma NicShape(n: Raw)
    ensures var e := NicEntry(n);
      && e.Obj? && e.fields.Keys == {"id", "name", "switchName", "vlanId", "macAddress", "ipAddresses", "connected"}
      && e.fields["id"] == Under(n, "id", Str("")) && e.fields["name"] == Under(n, "name", Str(""))
      && e.fields["vlanId"] == Of(n, "vlanId") && e.fields["macAddress"] == Under(n, "macAddress", Str(""))
  {
  }

  lemma NicLinks(n: Raw)
    ensures var e := NicEntry(n);
      && e.fields["switchName"] == OrElse(Of(n, "switchName"), OrElse(Of(n, "networkId"), Str("")))
      && e.fields["connected"] == Bool(!Falsy(Under(n, "connected", Bool(true))))
  {
    OrAgrees();
    TruthAgrees(Under(n, "connected", Bool(true)));
  }

  lemma NicAddresses(n: Raw)
    ensures AddressesTell(Of(n, "ipAddresses"), NicEntry(n).fields["ipAddresses"])
  {
    AddressesAreTold(Of(n, "ipAddresses"));
  }

  lemma NicIsTold(n: Raw)
    ensures NicTells(n, NicEntry(n))
  {
    NicShape(n);
    NicLinks(n);
    NicAddresses(n);
  }

  lemma DisksColumn(raw: Raw, partial: bool, guid: Option<Guid>, held: Json)
    ensures DisksHold(raw, partial, held, After(raw, partial, guid, Disks, held))
  {
    AfterIs(raw, partial, guid, Disks, held);
    SignalTwo(raw, Disks, "disks", "vhds");
    forall f ensures DiskTells(f, DiskEntry(f)) { DiskIsTold(f); }
    EntriesAreTold(if Of(raw, "vhds").List? then Of(raw, "vhds").xs else [], DiskEntry, DiskTells);
  }

  lemma NicsColumn(raw: Raw, partial: bool, guid: Option<Guid>, held: Json)
    ensures NicsHold(raw, partial, held, After(raw, partial, guid, Nics, held))
  {
    AfterIs(raw, partial, guid, Nics, held);
    SignalOne(raw, Nics, "nics");
    TruthAgrees(Of(raw, "nics"));
    forall f ensures NicTells(f, NicEntry(f)) { NicIsTold(f); }
    EntriesAreTold(if Of(raw, "nics").List? then Of(raw, "nics").xs else [], NicEntry, NicTells);
  }

  lemma SnapshotsColumn(raw: Raw, partial: bool, guid: Option<Guid>, held: Json)
    ensures SnapshotsHold(raw, partial, held, After(raw, partial, guid, Snapshots, held))
  {
    AfterIs(raw, partial, guid, Snapshots, held);
    SignalOne(raw, Snapshots, "snapshots");
    forall f ensures SnapshotTells(f, SnapshotEntry(f)) { SnapshotIsTold(f); }
    EntriesAreTold(if Of(raw, "snapshots").List? then Of(raw, "snapshots").xs else [], SnapshotEntry, SnapshotTells);
  }

  // ---- the row -----------------------------------------------------------------------------------

  lemma ScalarColumns(raw: Raw, partial: bool, guid: Option<Guid>, c: Column, held: Json)
    requires c in {UptimeSec, SecureBoot, Notes, AutoStartAction, AutoStopAction, ConfigPath, DvdPath,
                   NestedVirtualization, HighlyAvailable, CpuUsagePercent, AutoStartDelaySec}
    ensures ColumnHolds(raw, guid, partial, c, held, After(raw, partial, guid, c, held))
  {
    match c
    case UptimeSec => ValueColumn(raw, partial, guid, c, "uptimeSec", held);
    case SecureBoot => ValueColumn(raw, partial, guid, c, "secureBoot", held);
    case Notes => ValueColumn(raw, partial, guid, c, "notes", held);
    case AutoStartAction => EitherColumn(raw, partial, guid, c, "autoStartAction", "automaticStart", held);
    case AutoStopAction => EitherColumn(raw, partial, guid, c, "autoStopAction", "automaticStop", held);
    case ConfigPath => EitherColumn(raw, partial, guid, c, "configPath", "path", held);
    case DvdPath => EitherColumn(raw, partial, guid, c, "dvdPath", "dvd", held);
    case NestedVirtualization => EitherFlagColumn(raw, partial, guid, c, "nestedVirtualization", "nested", held);
    case HighlyAvailable => EitherFlagColumn(raw, partial, guid, c, "highlyAvailable", "ha", held);
    case CpuUsagePercent => EitherNumberColumn(raw, partial, guid, c, "cpuUsagePercent", "cpuUsagePct", held);
    case AutoStartDelaySec => EitherNumberColumn(raw, partial, guid, c, "autoStartDelaySec", "automaticStartDelay", held);
  }

  lemma EveryColumn(raw: Raw, partial: bool, guid: Option<Guid>, c: Column, held: Json)
    ensures ColumnHolds(raw, guid, partial, c, held, After(raw, partial, guid, c, held))
  {
    match c
    case Name => NameColumn(raw, partial, guid, held);
    case MetricsEnabled => MetricsColumn(raw, partial, guid, held);
    case GuestOs => GuestColumn(raw, partial, guid, held);
    case Firmware => FirmwareColumn(raw, partial, guid, held);
    case Vcpu => VcpuColumn(raw, partial, guid, held);
    case MemoryDynamic => MemoryFlagColumn(raw, partial, guid, held);
    case MemoryBytes => MemoryColumn(raw, partial, guid, held);
    case MemoryMinBytes | MemoryMaxBytes => BoundColumns(raw, partial, guid, held);
    case MemoryDemandBytes => DemandColumn(raw, partial, guid, held);
    case SecureBootTemplate => TemplateColumn(raw, partial, guid, held);
    case CreatedAt => CreatedColumn(raw, partial, guid, held);
    case Disks => DisksColumn(raw, partial, guid, held);
    case Nics => NicsColumn(raw, partial, guid, held);
    case Snapshots => SnapshotsColumn(raw, partial, guid, held);
    case _ => ScalarColumns(raw, partial, guid, c, held);
  }

  lemma StateReads(raw: Raw, partial: bool, held: string)
    ensures StateHolds(raw, partial, held, WriteState(held, raw, partial))
  {
  }

  /** Copying an entry onto a row, full or partial: state and all 26 columns hold what the
      entry's keys say, and GUID, folder and tags are untouched. */
  lemma WrittenRowHolds(vm: Vm, raw: Raw, host: Id, cluster: Option<Id>, partial: bool, now: Time)
    ensures Holds(vm, WriteVmRowSpec(vm, raw, host, cluster, partial, now), raw, host, cluster, partial, now)
  {
    var row := WriteVmRowSpec(vm, raw, host, cluster, partial, now);
    StateReads(raw, partial, vm.state);
    forall c ensures ColumnHolds(raw, vm.guid, partial, c, At(vm.columns, c), At(row.columns, c)) {
      ColumnAfter(vm, raw, host, cluster, partial, now, c);
      EveryColumn(raw, partial, vm.guid, c, At(vm.columns, c));
    }
  }
}
