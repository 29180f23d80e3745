/** The VM table of a cluster under its nodes' snapshots, seen as a table of owners. */
module Ownership {
  import opened Wrappers
  import opened Model
  import opened CacheOps
  import opened Inventory
  import opened InventoryLaws
  import opened Invariants
  import opened SnapshotSteps
  import ResponseSteps

  // ---- the abstract table: which node owns a GUID ------------------------------------------

  type Owners = map<Guid, Id>

  /** Listing a GUID makes the reporter its owner; the owner omitting it ends the ownership;
      anybody else omitting it means nothing. */
  function Claim(owners: Owners, h: Id, listed: set<Guid>): Owners {
    map g | g in owners.Keys + listed && (g in listed || owners[g] != h) :: if g in listed then h else owners[g]
  }

  datatype Report = Report(host: Id, items: seq<Item>, dt: nat)

  function Claims(owners: Owners, reports: seq<Report>): Owners {
    if reports == [] then owners
    else
      var last := reports[|reports| - 1];
      Claim(Claims(owners, reports[..|reports| - 1]), last.host, Listed(last.items))
  }

  // ---- the concrete table -----------------------------------------------------------------------

  /** The row that stands for a GUID in the scope of `h`. */
  ghost predicate Stands(s: State, h: Id, g: Guid, v: Id)
    requires h in s.hosts
  {
    v in s.vms && s.vms[v].guid == Some(g) && s.vms[v].host in ScopeHosts(s.hosts, h)
  }

  // About one GUID, the rows of the scope and the abstract table say the same.
  ghost predicate SaysOf(s: State, h: Id, owners: Owners, g: Guid)
    requires h in s.hosts
  {
    && (forall v :: Stands(s, h, g, v) ==> g in owners && s.vms[v].host == owners[g])
    && (g in owners ==> exists v :: Stands(s, h, g, v))
  }

  /** The rows of the scope say exactly what the abstract table says. */
  ghost predicate Represents(s: State, h: Id, owners: Owners)
    requires h in s.hosts
  {
    forall g {:trigger SaysOf(s, h, owners, g)} :: SaysOf(s, h, owners, g)
  }

  /** No VM of this scope was deleted recently. */
  ghost predicate NoTombs(s: State, h: Id)
    requires h in s.hosts
  {
    forall k :: k in s.tombs ==> k.host !in ScopeHosts(s.hosts, h)
  }

  function Reported(s: State, r: Report): State {
    SnapshotSpec(Later(s, r.dt), r.host, r.items)
  }

  function AfterReports(s: State, reports: seq<Report>): State {
    if reports == [] then s else Reported(AfterReports(s, reports[..|reports| - 1]), reports[|reports| - 1])
  }

  lemma ScopesAgree(s: State, h: Id, n: Id)
    requires h in s.hosts && n in ScopeHosts(s.hosts, h)
    ensures n in s.hosts && ScopeHosts(s.hosts, n) == ScopeHosts(s.hosts, h)
  {
  }

  lemma NothingTombstoned(s: State, h: Id, n: Id, items: seq<Item>)
    requires h in s.hosts && n in ScopeHosts(s.hosts, h) && NoTombs(s, h)
    ensures n in s.hosts && Accepted(s, n, items) == Listed(items)
  {
    ScopesAgree(s, h, n);
    assert Tombstoned(s.tombs, n, s.now) == {};
  }

  // A row of the scope after the snapshot: where it came from and whose it is.
  lemma StandsAfter(s: State, h: Id, n: Id, items: seq<Item>, owners: Owners, g: Guid, v: Id)
    requires h in s.hosts && n in ScopeHosts(s.hosts, h) && NoTombs(s, h) && Represents(s, h, owners)
    requires Readable(s, n) && WellFormed(items)
    requires SnapshotSpec(s, n, items).hosts == s.hosts && Stands(SnapshotSpec(s, n, items), h, g, v)
    ensures var after := Claim(owners, n, Listed(items)); g in after && SnapshotSpec(s, n, items).vms[v].host == after[g]
  {
    assert SaysOf(s, h, owners, g);
    NothingTombstoned(s, h, n, items);
    ScopesAgree(s, h, n);
    RowsReconciled(s, n, items);
    var vms := SnapshotSpec(s, n, items).vms;
    if v in s.vms {
      assert RowFate(s, n, items, vms, v);
      assert Stands(s, h, g, v);
    } else {
      assert NewRow(s, n, items, vms, v);
    }
  }

  lemma OwnedStands(s: State, h: Id, n: Id, items: seq<Item>, owners: Owners, g: Guid) returns (v: Id)
    requires h in s.hosts && n in ScopeHosts(s.hosts, h) && NoTombs(s, h) && Represents(s, h, owners)
    requires Readable(s, n) && WellFormed(items)
    requires SnapshotSpec(s, n, items).hosts == s.hosts && g in Claim(owners, n, Listed(items))
    ensures Stands(SnapshotSpec(s, n, items), h, g, v)
  {
    assert SaysOf(s, h, owners, g);
    NothingTombstoned(s, h, n, items);
    ScopesAgree(s, h, n);
    var s' := SnapshotSpec(s, n, items);
    if g in Listed(items) {
      GuidsReconciled(s, n, items);
      assert g in GuidsOn(s'.vms, n);
      v :| v in s'.vms && s'.vms[v].host == n && s'.vms[v].guid == Some(g);
    } else {
      v :| Stands(s, h, g, v);
      RowsReconciled(s, n, items);
      assert RowFate(s, n, items, s'.vms, v);
    }
  }

  lemma HostsStay(s: State, n: Id, items: seq<Item>)
    ensures SnapshotSpec(s, n, items).hosts == s.hosts
  {
    SnapshotSurroundings(s, n, items);
  }

  lemma TombsOnlyGo(s: State, n: Id, items: seq<Item>)
    ensures SnapshotSpec(s, n, items).tombs.Keys <= s.tombs.Keys
  {
    if n in s.hosts {
      var r := Finished(s, n, items);
      assert Committed(s, n, r).tombs.Keys <= s.tombs.Keys;
      assert SnapshotSpec(s, n, items).tombs == if r.raised then s.tombs else Committed(s, n, r).tombs;
    }
  }

  /** One snapshot of one node refines one claim. */
  lemma SnapshotClaims(s: State, h: Id, n: Id, items: seq<Item>, owners: Owners)
    requires h in s.hosts && n in ScopeHosts(s.hosts, h) && NoTombs(s, h) && Represents(s, h, owners)
    requires Readable(s, n) && WellFormed(items)
    ensures SnapshotSpec(s, n, items).hosts == s.hosts
    ensures Represents(SnapshotSpec(s, n, items), h, Claim(owners, n, Listed(items)))
  {
    HostsStay(s, n, items);
    var s', after := SnapshotSpec(s, n, items), Claim(owners, n, Listed(items));
    forall g ensures SaysOf(s', h, after, g) {
      forall v | Stands(s', h, g, v) ensures g in after && s'.vms[v].host == after[g] {
        StandsAfter(s, h, n, items, owners, g, v);
      }
      if g in after {
        var v := OwnedStands(s, h, n, items, owners, g);
      }
    }
  }

  ghost predicate FromScope(s: State, h: Id, reports: seq<Report>)
    requires h in s.hosts
  {
    forall i :: 0 <= i < |reports| ==> reports[i].host in ScopeHosts(s.hosts, h) && WellFormed(reports[i].items)
  }

  // Time passing changes no row.
  lemma LaterIsTheSame(s: State, h: Id, owners: Owners, dt: nat)
    requires Sound(s) && h in s.hosts && NoTombs(s, h) && Represents(s, h, owners)
    ensures var later := Later(s, dt); Sound(later) && NoTombs(later, h) && Represents(later, h, owners)
  {
    var later := Later(s, dt);
    ResponseSteps.CacheOnlySound(s, later);
    forall g ensures SaysOf(later, h, owners, g) {
      assert SaysOf(s, h, owners, g);
      forall v ensures Stands(s, h, g, v) <==> Stands(later, h, g, v) {}
    }
  }

  lemma SoundSnapshotClaims(s: State, h: Id, n: Id, items: seq<Item>, owners: Owners)
    requires Sound(s) && h in s.hosts && n in ScopeHosts(s.hosts, h) && WellFormed(items)
    requires NoTombs(s, h) && Represents(s, h, owners)
    ensures var s' := SnapshotSpec(s, n, items);
      Sound(s') && s'.hosts == s.hosts && NoTombs(s', h) && Represents(s', h, Claim(owners, n, Listed(items)))
  {
    ScopesAgree(s, h, n);
    SnapshotSound(s, n, items);
    SoundIsReadable(s, n);
    SnapshotClaims(s, h, n, items, owners);
    TombsOnlyGo(s, n, items);
  }

  lemma ReportClaims(s: State, h: Id, r: Report, owners: Owners)
    requires Sound(s) && h in s.hosts && r.host in ScopeHosts(s.hosts, h) && WellFormed(r.items)
    requires NoTombs(s, h) && Represents(s, h, owners)
    ensures var s' := Reported(s, r);
      Sound(s') && s'.hosts == s.hosts && NoTombs(s', h) && Represents(s', h, Claim(owners, r.host, Listed(r.items)))
  {
    LaterIsTheSame(s, h, owners, r.dt);
    SoundSnapshotClaims(Later(s, r.dt), h, r.host, r.items, owners);
  }

  /** Any sequence of snapshots from one cluster's nodes refines the fold of their claims. */
  lemma {:induction false} ReportsClaim(s: State, h: Id, reports: seq<Report>, owners: Owners)
    requires Sound(s) && h in s.hosts && NoTombs(s, h) && Represents(s, h, owners) && FromScope(s, h, reports)
    ensures var s' := AfterReports(s, reports);
      && Sound(s') && s'.hosts == s.hosts && NoTombs(s', h) && Represents(s', h, Claims(owners, reports))
    decreases |reports|
  {
    if reports != [] {
      var init := reports[..|reports| - 1];
      ReportsClaim(s, h, init, owners);
      ReportClaims(AfterReports(s, init), h, reports[|reports| - 1], Claims(owners, init));
    }
  }

  // ---- identity of rows ---------------------------------------------------------------------------

  /** While a GUID keeps an owner through every snapshot, it keeps its row: id, folder and tags. */
  lemma {:induction false} RowIsConstant(s: State, h: Id, reports: seq<Report>, owners: Owners, g: Guid, v: Id)
    requires Sound(s) && h in s.hosts && NoTombs(s, h) && Represents(s, h, owners) && FromScope(s, h, reports)
    requires Stands(s, h, g, v)
    requires forall i :: 0 <= i <= |reports| ==> g in Claims(owners, reports[..i])
    ensures var s' := AfterReports(s, reports);
      s'.hosts == s.hosts && Stands(s', h, g, v) && s'.vms[v].folder == s.vms[v].folder && s'.vms[v].tags == s.vms[v].tags
    decreases |reports|
  {
    if reports != [] {
      var init, last := reports[..|reports| - 1], reports[|reports| - 1];
      forall i | 0 <= i <= |init| ensures g in Claims(owners, init[..i]) {
        assert init[..i] == reports[..i];
      }
      RowIsConstant(s, h, init, owners, g, v);
      ReportsClaim(s, h, init, owners);
      assert reports[..|reports|] == reports;
      assert SaysOf(AfterReports(s, init), h, Claims(owners, init), g);
      RowSurvives(AfterReports(s, init), h, last, g, v);
    }
  }

  lemma SnapshotKeepsRow(s: State, h: Id, n: Id, items: seq<Item>, g: Guid, v: Id)
    requires Readable(s, n) && h in s.hosts && n in ScopeHosts(s.hosts, h) && WellFormed(items)
    requires NoTombs(s, h) && Stands(s, h, g, v) && (g in Listed(items) || s.vms[v].host != n)
    ensures var vms := SnapshotSpec(s, n, items).vms;
      && v in vms && vms[v].guid == Some(g) && vms[v].host in ScopeHosts(s.hosts, h)
      && vms[v].folder == s.vms[v].folder && vms[v].tags == s.vms[v].tags
  {
    ScopesAgree(s, h, n);
    NothingTombstoned(s, h, n, items);
    RowsReconciled(s, n, items);
    assert RowFate(s, n, items, SnapshotSpec(s, n, items).vms, v);
    assert InScope(s, n, v);
  }

  lemma SoundSnapshotKeepsRow(s: State, h: Id, n: Id, items: seq<Item>, g: Guid, v: Id)
    requires Sound(s) && h in s.hosts && n in ScopeHosts(s.hosts, h) && WellFormed(items)
    requires NoTombs(s, h) && Stands(s, h, g, v) && (g in Listed(items) || s.vms[v].host != n)
    ensures var s' := SnapshotSpec(s, n, items);
      s'.hosts == s.hosts && Stands(s', h, g, v) && s'.vms[v].folder == s.vms[v].folder && s'.vms[v].tags == s.vms[v].tags
  {
    ScopesAgree(s, h, n);
    SoundIsReadable(s, n);
    HostsStay(s, n, items);
    SnapshotKeepsRow(s, h, n, items, g, v);
  }

  lemma LaterRow(s: State, h: Id, dt: nat, g: Guid, v: Id)
    requires Sound(s) && h in s.hosts && NoTombs(s, h) && Stands(s, h, g, v)
    ensures var later := Later(s, dt); Sound(later) && NoTombs(later, h) && Stands(later, h, g, v)
  {
    ResponseSteps.CacheOnlySound(s, Later(s, dt));
  }

  lemma RowSurvives(s: State, h: Id, r: Report, g: Guid, v: Id)
    requires Sound(s) && h in s.hosts && r.host in ScopeHosts(s.hosts, h) && WellFormed(r.items)
    requires NoTombs(s, h) && Stands(s, h, g, v) && (g in Listed(r.items) || s.vms[v].host != r.host)
    ensures var s' := Reported(s, r);
      s'.hosts == s.hosts && Stands(s', h, g, v) && s'.vms[v].folder == s.vms[v].folder && s'.vms[v].tags == s.vms[v].tags
  {
    LaterRow(s, h, r.dt, g, v);
    SoundSnapshotKeepsRow(Later(s, r.dt), h, r.host, r.items, g, v);
  }

  /** Why "a migrated VM is never lost" would be too strong: the old node's late snapshot takes
      the row back, and its next one, which omits the VM, deletes it. */
  lemma StaleSnapshotLosesMigratedVm(s: State, h: Id, node: Id, stale: seq<Item>, next: seq<Item>, owners: Owners, g: Guid)
    requires Sound(s) && h in s.hosts && NoTombs(s, h) && Represents(s, h, owners)
    requires node in ScopeHosts(s.hosts, h) && WellFormed(stale) && WellFormed(next)
    requires g in owners && owners[g] != node && g in Listed(stale) && g !in Listed(next)
    ensures var s' := AfterReports(s, [Report(node, stale, 0), Report(node, next, 0)]);
      s'.hosts == s.hosts && !exists v :: Stands(s', h, g, v)
  {
    var r1, r2 := Report(node, stale, 0), Report(node, next, 0);
    var reports := [r1, r2];
    ReportsClaim(s, h, reports, owners);
    assert reports[..1] == [r1] && [r1][..0] == [];
    assert Claims(owners, [r1]) == Claim(owners, node, Listed(stale));
    assert g !in Claims(owners, reports);
    assert SaysOf(AfterReports(s, reports), h, Claims(owners, reports), g);
  }
}
