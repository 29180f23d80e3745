/** Where a new VM may live: the backend's admission check against the agent's own folder
    resolution (app/services/vms.py, scripts/fake_agent.py). */
module Placement {
  import opened Model
  import opened VmRow

  // ---- path helpers -------------------------------------------------------------------

  function Backslashed(s: string): (r: string)
    ensures |r| == |s| && forall i :: 0 <= i < |s| ==> r[i] == if s[i] == '/' then '\\' else s[i]
  {
    if s == "" then "" else [if s[0] == '/' then '\\' else s[0]] + Backslashed(s[1..])
  }

  function TrimBackslashes(s: string): string {
    if s != "" && s[|s| - 1] == '\\' then TrimBackslashes(s[..|s| - 1]) else s
  }

  function TrimSeparators(s: string): string {
    if s != "" && s[|s| - 1] in {'\\', '/'} then TrimSeparators(s[..|s| - 1]) else s
  }

  /** The backend's normal form of a path. */
  function NormPath(s: string): string {
    TrimBackslashes(Backslashed(Strip(s)))
  }

  // ASCII letters plus the four that a case-insensitive [a-z] also matches.
  predicate DriveLetter(c: char) {
    'a' <= c <= 'z' || 'A' <= c <= 'Z' || c in {'\U{130}', '\U{131}', '\U{17f}', '\U{212a}'}
  }

  // Letters beyond ASCII are left alone.
  function Lower(c: char): char {
    if 'A' <= c <= 'Z' then (c as int + 32) as char else c
  }

  // Case-insensitive match of one character of the literal "clusterstorage".
  predicate SameLetter(c: char, l: char) {
    Lower(c) == l || (l == 's' && c == '\U{17f}')
  }

  const CSV_DIR := "clusterstorage"

  /** X:\ClusterStorage\<volume>..., in any case: a Cluster Shared Volume. */
  predicate IsCsvPath(s: string) {
    && |s| > 18 && DriveLetter(s[0]) && s[1] == ':' && s[2] == '\\'
    && (forall i :: 0 <= i < 14 ==> SameLetter(s[3 + i], CSV_DIR[i]))
    && s[17] == '\\' && s[18] != '\\'
  }

  predicate IsClusterStorage(dir: string) {
    |dir| == 14 && forall i :: 0 <= i < 14 ==> SameLetter(dir[i], CSV_DIR[i])
  }

  /** The path reads: drive, colon, "ClusterStorage", a volume, and whatever is below it. */
  ghost predicate ReadsAsVolume(s: string) {
    exists drive: char, dir: string, volume: string, below: string ::
      s == [drive] + ":\\" + dir + "\\" + volume + below && DriveLetter(drive) && IsClusterStorage(dir)
      && volume != "" && '\\' !in volume
  }

  lemma CsvPathExactly(s: string)
    ensures IsCsvPath(s) <==> ReadsAsVolume(s)
  {
    if IsCsvPath(s) {
      var dir, volume, below := s[3..17], s[18..19], s[19..];
      assert s == [s[0]] + ":\\" + dir + "\\" + volume + below;
    }
    if ReadsAsVolume(s) {
      var drive: char, dir, volume, below :| s == [drive] + ":\\" + dir + "\\" + volume + below && DriveLetter(drive)
        && IsClusterStorage(dir) && volume != "" && '\\' !in volume;
      assert s[3..17] == dir && s[18] == volume[0] && volume[0] in volume;
    }
  }

  predicate OnDriveC(s: string) {
    |s| > 1 && Lower(s[0]) == 'c' && s[1] == ':'
  }

  predicate IsSystemDrive(s: string) {
    OnDriveC(s) && !IsCsvPath(s)
  }

  /** The backend's verdict on a requested destination. */
  predicate StorageAllowed(clustered: bool, defaultVmPath: string, destination: string) {
    var default := NormPath(defaultVmPath);
    var dest := if NormPath(destination) != "" then NormPath(destination) else default;
    if clustered then IsCsvPath(dest)
    else !(dest != "" && IsSystemDrive(dest) && !IsSystemDrive(default))
  }

  // ---- the agent -------------------------------------------------------------------------

  function VolumeEnd(s: string, i: nat): (j: nat)
    requires i <= |s|
    ensures i <= j <= |s|
    decreases |s| - i
  {
    if i < |s| && s[i] != '\\' then VolumeEnd(s, i + 1) else i
  }

  predicate HasDrive(s: string) {
    |s| > 1 && s[1] == ':'
  }

  predicate SameDrive(dest: string, default: string) {
    HasDrive(default) && |dest| > 1 && Lower(dest[0]) == Lower(default[0]) && dest[1] == ':'
  }

  /** The per-VM folder the agent creates. */
  function ResolveVmFolder(defaultVmPath: string, destination: string, name: string): string {
    var default := TrimSeparators(defaultVmPath);
    var dest := TrimSeparators(destination);
    if dest == "" then default + "\\" + name
    else if IsCsvPath(dest) then dest[..VolumeEnd(dest, 18)] + "\\VMS\\" + name
    else if SameDrive(dest, default) then default + "\\" + name
    else (if HasDrive(dest) then dest[..2] else dest) + "\\HyperV\\VMS\\" + name
  }

  // The string that travels: the request carries the trimmed destination, not its normal form.
  function Sent(destination: string): string {
    TrimSeparators(Strip(destination))
  }

  predicate UsesDefault(defaultVmPath: string, destination: string) {
    var d := Sent(destination);
    d == "" || (!IsCsvPath(d) && SameDrive(d, TrimSeparators(defaultVmPath)))
  }

  // A default path as hosts report it: backslashes only, no blanks around it.
  predicate PlainPath(s: string) {
    Strip(s) == s && forall c :: c in s ==> c != '/'
  }

  // ---- what both sides see -----------------------------------------------------------------

  lemma {:induction false} TrimBoth(s: string)
    ensures TrimBackslashes(Backslashed(s)) == Backslashed(TrimSeparators(s))
    decreases |s|
  {
    if s != "" {
      var b, init := Backslashed(s), s[..|s| - 1];
      assert b[..|b| - 1] == Backslashed(init);
      if s[|s| - 1] in {'\\', '/'} { TrimBoth(init); }
    }
  }

  /** The normal form is exactly the sent string with its slashes turned. */
  lemma NormIsSentBackslashed(destination: string)
    ensures NormPath(destination) == Backslashed(Sent(destination))
  {
    TrimBoth(Strip(destination));
  }

  lemma PlainDefault(defaultVmPath: string)
    requires PlainPath(defaultVmPath)
    ensures NormPath(defaultVmPath) == TrimSeparators(defaultVmPath)
  {
    TrimBoth(defaultVmPath);
    TrimIsPrefix(defaultVmPath);
    var t := TrimSeparators(defaultVmPath);
    assert forall i :: 0 <= i < |t| ==> t[i] == defaultVmPath[i] && defaultVmPath[i] in defaultVmPath;
    assert Backslashed(t) == t;
  }

  lemma {:induction false} TrimIsPrefix(s: string)
    ensures TrimSeparators(s) <= s
    decreases |s|
  {
    if s != "" && s[|s| - 1] in {'\\', '/'} { TrimIsPrefix(s[..|s| - 1]); }
  }

  lemma CsvExtends(s: string, t: string)
    requires IsCsvPath(s) && s <= t
    ensures IsCsvPath(t)
  {
  }

  lemma CsvVolumeIsCsv(s: string, name: string)
    requires IsCsvPath(s)
    ensures IsCsvPath(s[..VolumeEnd(s, 18)] + "\\VMS\\" + name)
  {
    assert VolumeEnd(s, 18) >= 19;
    assert IsCsvPath(s[..VolumeEnd(s, 18)]);
    CsvExtends(s[..VolumeEnd(s, 18)], s[..VolumeEnd(s, 18)] + "\\VMS\\" + name);
  }

  lemma OwnFolderIsNotCsv(d: string, name: string)
    requires d != "" && !IsCsvPath(d)
    ensures var r := (if HasDrive(d) then d[..2] else d) + "\\HyperV\\VMS\\" + name;
      !IsCsvPath(r) && (OnDriveC(r) <==> OnDriveC(d))
  {
    var r := (if HasDrive(d) then d[..2] else d) + "\\HyperV\\VMS\\" + name;
    if HasDrive(d) {
      assert r[3] == 'H';
      assert CSV_DIR[0] == 'c';
    } else {
      assert r[1] == if |d| > 1 then d[1] else '\\';
    }
  }

  /** On any host and for any strings: the VM lands on a Cluster Shared Volume exactly when
      the string as sent names one, or the default folder is used and lies on one. */
  lemma LandsOnCsvExactly(defaultVmPath: string, destination: string, name: string)
    ensures IsCsvPath(ResolveVmFolder(defaultVmPath, Strip(destination), name))
      <==> (IsCsvPath(Sent(destination))
            || (UsesDefault(defaultVmPath, destination)
                && IsCsvPath(TrimSeparators(defaultVmPath) + "\\" + name)))
  {
    var d := Sent(destination);
    if d != "" {
      if IsCsvPath(d) { CsvVolumeIsCsv(d, name); }
      else if !SameDrive(d, TrimSeparators(defaultVmPath)) { OwnFolderIsNotCsv(d, name); }
    }
  }

  predicate NoSlash(s: string) {
    forall c :: c in s ==> c != '/'
  }

  lemma SentHasNoSlash(s: string)
    requires NoSlash(s)
    ensures Backslashed(Sent(s)) == Sent(s)
  {
    StripIsInfix(s);
    TrimIsPrefix(Strip(s));
    var t := Sent(s);
    forall i | 0 <= i < |t| ensures t[i] != '/' {
      assert t[i] == Strip(s)[i];
      assert Strip(s)[i] in Strip(s);
    }
  }

  lemma StripIsInfix(s: string)
    ensures forall c :: c in Strip(s) ==> c in s
  {
    LStripIsSuffix(s);
    RStripIsPrefix(LStrip(s));
  }

  lemma {:induction false} LStripIsSuffix(s: string)
    ensures forall c :: c in LStrip(s) ==> c in s
  {
    if s != "" && Blank(s[0]) { LStripIsSuffix(s[1..]); }
  }

  lemma {:induction false} RStripIsPrefix(s: string)
    ensures forall c :: c in RStrip(s) ==> c in s
    decreases |s|
  {
    if s != "" && Blank(s[|s| - 1]) { RStripIsPrefix(s[..|s| - 1]); }
  }

  // Stripping once more changes nothing.
  lemma StrippedIsSame(clustered: bool, default: string, destination: string)
    ensures StorageAllowed(clustered, default, Strip(destination)) == StorageAllowed(clustered, default, destination)
  {
    StripTwice(destination);
  }

  lemma StripTwice(s: string)
    ensures Strip(Strip(s)) == Strip(s)
  {
    RStripKeepsFront(LStrip(s));
    LStripEnds(s);
    RStripEnds(LStrip(s));
  }

  lemma {:induction false} LStripEnds(s: string)
    ensures LStrip(s) != "" ==> !Blank(LStrip(s)[0])
  {
    if s != "" && Blank(s[0]) { LStripEnds(s[1..]); }
  }

  lemma {:induction false} RStripEnds(s: string)
    ensures RStrip(s) != "" ==> !Blank(RStrip(s)[|RStrip(s)| - 1])
    decreases |s|
  {
    if s != "" && Blank(s[|s| - 1]) { RStripEnds(s[..|s| - 1]); }
  }

  lemma {:induction false} RStripKeepsFront(s: string)
    ensures RStrip(s) != "" ==> s != "" && RStrip(s)[0] == s[0]
    decreases |s|
  {
    if s != "" && Blank(s[|s| - 1]) { RStripKeepsFront(s[..|s| - 1]); }
  }

  /** Clustered host: whatever the backend admits, the agent puts on a Cluster Shared Volume. */
  lemma ClusteredPlacementIsSound(defaultVmPath: string, destination: string, name: string)
    requires PlainPath(defaultVmPath) && NoSlash(destination)
    requires StorageAllowed(true, defaultVmPath, destination)
    ensures IsCsvPath(ResolveVmFolder(defaultVmPath, Strip(destination), name))
  {
    NormIsSentBackslashed(destination);
    SentHasNoSlash(destination);
    PlainDefault(defaultVmPath);
    LandsOnCsvExactly(defaultVmPath, destination, name);
    if Sent(destination) == "" {
      var t := TrimSeparators(defaultVmPath);
      CsvExtends(t, t + "\\" + name);
    }
  }

  // The string as sent names no volume, and the default folder would not be on one.
  predicate NamesNoVolume(defaultVmPath: string, sent: string, name: string) {
    var t := TrimSeparators(defaultVmPath);
    sent != "" && !IsCsvPath(sent) && !(SameDrive(sent, t) && IsCsvPath(t + "\\" + name))
  }

  /** Clustered host, any destination: an admitted VM lands off the Cluster Shared Volumes exactly
      when the string as sent names none (the backend read one into its slashes) and the default
      folder it may fall back to lies on none. */
  lemma ClusteredPlacementExactly(defaultVmPath: string, destination: string, name: string)
    requires PlainPath(defaultVmPath) && StorageAllowed(true, defaultVmPath, destination)
    ensures IsCsvPath(ResolveVmFolder(defaultVmPath, Strip(destination), name))
      <==> !NamesNoVolume(defaultVmPath, Sent(destination), name)
  {
    NormIsSentBackslashed(destination);
    PlainDefault(defaultVmPath);
    LandsOnCsvExactly(defaultVmPath, destination, name);
    var t := TrimSeparators(defaultVmPath);
    if Sent(destination) == "" {
      assert Backslashed(Sent(destination)) == "";
      CsvExtends(t, t + "\\" + name);
    }
  }

  predicate UnderDefault(defaultVmPath: string, name: string, folder: string) {
    folder == TrimSeparators(defaultVmPath) + "\\" + name
  }

  /** The destinations that slip past a standalone host's check: a Cluster Shared Volume on C:
      spelt with slashes, so that only the backend recognises it. */
  predicate SlashedCsvOnC(defaultVmPath: string, destination: string) {
    var d := Sent(destination);
    && OnDriveC(d) && !IsCsvPath(d) && IsCsvPath(Backslashed(d))
    && !OnDriveC(TrimSeparators(defaultVmPath))
  }

  /** Standalone host: an admitted VM lands on the system drive outside the default folder
      exactly for those destinations. */
  lemma StandalonePlacementExactly(defaultVmPath: string, destination: string, name: string)
    requires PlainPath(defaultVmPath)
    requires StorageAllowed(false, defaultVmPath, destination)
    ensures var folder := ResolveVmFolder(defaultVmPath, Strip(destination), name);
      (IsSystemDrive(folder) && !UnderDefault(defaultVmPath, name, folder))
        <==> SlashedCsvOnC(defaultVmPath, destination)
  {
    NormIsSentBackslashed(destination);
    PlainDefault(defaultVmPath);
    var d, t := Sent(destination), TrimSeparators(defaultVmPath);
    var folder := ResolveVmFolder(defaultVmPath, Strip(destination), name);
    if d != "" {
      var b := Backslashed(d);
      assert OnDriveC(b) == OnDriveC(d);
      if IsCsvPath(d) {
        CsvVolumeIsCsv(d, name);
      } else if !SameDrive(d, t) {
        OwnFolderIsNotCsv(d, name);
        if OnDriveC(d) {
          assert !OnDriveC(t);
          assert folder[0] == d[0];
        }
      }
    }
  }

  lemma StandalonePlacementIsSound(defaultVmPath: string, destination: string, name: string)
    requires PlainPath(defaultVmPath) && NoSlash(destination)
    requires StorageAllowed(false, defaultVmPath, destination)
    ensures var folder := ResolveVmFolder(defaultVmPath, Strip(destination), name);
      IsSystemDrive(folder) ==> UnderDefault(defaultVmPath, name, folder)
  {
    SentHasNoSlash(destination);
    StandalonePlacementExactly(defaultVmPath, destination, name);
  }

  // ---- nothing that is well placed is refused ------------------------------------------------

  /** Where the platform wants a VM: on a Cluster Shared Volume of a clustered host; off a
      standalone host's system drive, unless under its default folder. */
  predicate WellPlaced(clustered: bool, defaultVmPath: string, destination: string, name: string) {
    var folder := ResolveVmFolder(defaultVmPath, Strip(destination), name);
    if clustered then IsCsvPath(folder)
    else IsSystemDrive(folder) ==> UnderDefault(defaultVmPath, name, folder)
  }

  /** The one case on a standalone host where the backend is stricter than need be: a local path
      on C: while the default folder is on a Cluster Shared Volume of C:, where the agent would
      put the VM. */
  predicate LocalBesideVolume(defaultVmPath: string, destination: string) {
    var d, t := Sent(destination), TrimSeparators(defaultVmPath);
    OnDriveC(d) && !IsCsvPath(d) && OnDriveC(t) && IsCsvPath(t)
  }

  /** The same on a clustered host: the agent falls back to a default folder on a volume, which
      the backend does not see in the string, or only once the VM's name is appended. */
  predicate VolumeByDefault(defaultVmPath: string, destination: string, name: string) {
    var d, t := Sent(destination), TrimSeparators(defaultVmPath);
    && IsCsvPath(t + "\\" + name)
    && if d == "" then !IsCsvPath(t) else !IsCsvPath(d) && SameDrive(d, t)
  }

  lemma DefaultFolderDrive(t: string, name: string, d: string)
    requires OnDriveC(d) && !SameDrive(d, t)
    ensures d[..2] + "\\HyperV\\VMS\\" + name != t + "\\" + name
  {
    var a, b := d[..2] + "\\HyperV\\VMS\\" + name, t + "\\" + name;
    assert a[0] == d[0] && a[1] == ':';
    assert |t| > 1 ==> b[0] == t[0] && b[1] == t[1];
    assert |t| == 1 ==> b[1] == '\\';
    assert t == "" ==> b[0] == '\\';
  }

  /** Standalone host: what the backend admits is what the agent places well, for every slash-free
      destination, but for that one case, which it refuses needlessly. */
  lemma StandaloneAdmissionExactly(defaultVmPath: string, destination: string, name: string)
    requires PlainPath(defaultVmPath) && NoSlash(destination)
    ensures StorageAllowed(false, defaultVmPath, destination)
      <==> WellPlaced(false, defaultVmPath, destination, name) && !LocalBesideVolume(defaultVmPath, destination)
  {
    NormIsSentBackslashed(destination);
    SentHasNoSlash(destination);
    PlainDefault(defaultVmPath);
    var d, t := Sent(destination), TrimSeparators(defaultVmPath);
    if d != "" {
      if IsCsvPath(d) {
        CsvVolumeIsCsv(d, name);
      } else if SameDrive(d, t) {
        CsvOrNot(t, name);
      } else {
        OwnFolderIsNotCsv(d, name);
        if OnDriveC(d) { DefaultFolderDrive(t, name, d); }
      }
    }
  }

  lemma CsvOrNot(t: string, name: string)
    ensures IsCsvPath(t) ==> IsCsvPath(t + "\\" + name)
  {
    if IsCsvPath(t) { CsvExtends(t, t + "\\" + name); }
  }

  /** Clustered host: likewise, but for the default folders the backend does not recognise. */
  lemma ClusteredAdmissionExactly(defaultVmPath: string, destination: string, name: string)
    requires PlainPath(defaultVmPath) && NoSlash(destination)
    ensures StorageAllowed(true, defaultVmPath, destination)
      <==> WellPlaced(true, defaultVmPath, destination, name) && !VolumeByDefault(defaultVmPath, destination, name)
  {
    NormIsSentBackslashed(destination);
    SentHasNoSlash(destination);
    PlainDefault(defaultVmPath);
    LandsOnCsvExactly(defaultVmPath, destination, name);
    CsvOrNot(TrimSeparators(defaultVmPath), name);
  }

  const CSV_ON_C := "C:\\ClusterStorage\\V"

  lemma CsvOnC(t: string)
    requires t == CSV_ON_C
    ensures IsCsvPath(t) && NoSlash(t) && |t| == 19 && OnDriveC(t) && t[18] == 'V'
  {
    var d := CSV_DIR;
    assert t[3] == 'C' && t[4] == 'l' && t[5] == 'u' && t[6] == 's' && t[7] == 't' && t[8] == 'e' && t[9] == 'r';
    assert t[10] == 'S' && t[11] == 't' && t[12] == 'o' && t[13] == 'r' && t[14] == 'a' && t[15] == 'g' && t[16] == 'e';
    assert d[0] == 'c' && d[1] == 'l' && d[2] == 'u' && d[3] == 's' && d[4] == 't' && d[5] == 'e' && d[6] == 'r';
    assert d[7] == 's' && d[8] == 't' && d[9] == 'o' && d[10] == 'r' && d[11] == 'a' && d[12] == 'g' && d[13] == 'e';
    assert t[0] == 'C' && t[1] == ':' && t[2] == '\\' && t[17] == '\\' && t[18] == 'V' && |t| == 19;
  }

  /** The slash does matter: "C:/ClusterStorage\V" is admitted on a cluster whose default is
      elsewhere, and created on the system drive. */
  lemma SlashedDestinationEscapes(default: string, name: string)
    requires PlainPath(default) && !OnDriveC(TrimSeparators(default))
    ensures var destination := CSV_ON_C[2 := '/'];
      StorageAllowed(true, default, destination)
      && IsSystemDrive(ResolveVmFolder(default, Strip(destination), name))
  {
    var t := CSV_ON_C;
    CsvOnC(t);
    var s := t[2 := '/'];
    assert Strip(s) == s && TrimSeparators(s) == s;
    NormIsSentBackslashed(s);
    var b := Backslashed(s);
    forall i | 0 <= i < |s| ensures b[i] == t[i] { assert t[i] in t; }
    assert b == t;
    OwnFolderIsNotCsv(s, name);
  }
}
