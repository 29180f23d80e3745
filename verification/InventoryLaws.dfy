/** What one full snapshot does to the table, exactly. */
module InventoryLaws {
  import opened Wrappers
  import opened Model
  import opened VmRow
  import opened CacheOps
  import opened Audit
  import opened Inventory
  import opened Invariants
  import opened RowContents
  import opened Telling

  // ---- the snapshot seen from outside ------------------------------------------------------

  /** The GUIDs a snapshot lists. */
  function Listed(items: seq<Item>): set<Guid> {
    set i | 0 <= i < |items| && ListedBy(items[i]).Some? :: ListedBy(items[i]).value
  }

  predicate InScope(s: State, h: Id, v: Id)
    requires h in s.hosts
  {
    v in s.vms && s.vms[v].guid.Some? && s.vms[v].host in ScopeHosts(s.hosts, h)
  }

  /** The GUIDs that already have a row on a host of this one's scope. */
  function KnownGuids(s: State, h: Id): set<Guid>
    requires h in s.hosts
  {
    set v | v in s.vms && InScope(s, h, v) :: s.vms[v].guid.value
  }

  /** What a snapshot is to leave: everything listed but the leftovers of deleted VMs. */
  function Accepted(s: State, h: Id, items: seq<Item>): set<Guid>
    requires h in s.hosts
  {
    set g | g in Listed(items) && (g in KnownGuids(s, h) || g !in Tombstoned(s.tombs, h, s.now))
  }

  function GuidsOn(vms: map<Id, Vm>, h: Id): set<Guid> {
    set v | v in vms && vms[v].host == h && vms[v].guid.Some? :: vms[v].guid.value
  }

  /** The rows are consistent enough for a snapshot to be understood. */
  ghost predicate Readable(s: State, h: Id) {
    h in s.hosts && FreshIds(s) && ClusterSync(s) && GuidsUnique(s.vms)
  }

  // ---- the index --------------------------------------------------------------------------------

  ghost predicate OnePerGuid(vms: map<Id, Vm>, scope: set<Id>) {
    forall a, b :: a in vms && b in vms && vms[a].host in scope && vms[b].host in scope && Alike(vms[a], vms[b]) ==> a == b
  }

  predicate Alike(a: Vm, b: Vm) {
    a.guid.Some? && a.guid == b.guid
  }

  lemma ScopeIsUnique(s: State, h: Id)
    requires Readable(s, h)
    ensures OnePerGuid(s.vms, ScopeHosts(s.hosts, h))
  {
  }

  lemma {:induction false} IndexIsComplete(vms: map<Id, Vm>, scope: set<Id>, n: Id)
    requires OnePerGuid(vms, scope)
    ensures forall v :: v in vms && v < n && vms[v].host in scope && vms[v].guid.Some? ==>
      vms[v].guid.value in Index(vms, scope, n) && Index(vms, scope, n)[vms[v].guid.value] == v
  {
    if n > 0 {
      IndexIsComplete(vms, scope, n - 1);
    }
  }

  // ---- the walk ------------------------------------------------------------------------------------

  // The row of `v` before and during the walk: taken over by the reporter, or untouched.
  ghost predicate Carried(was: Vm, row: Vm, rep: Reporter, scope: set<Id>, seen: set<Guid>) {
    || row == was
    || (&& was.host in scope && was.guid.Some? && was.guid.value in seen
        && row.guid == was.guid && row.folder == was.folder && row.tags == was.tags
        && row.host == rep.host && row.cluster == rep.cluster)
  }

  ghost predicate Added(row: Vm, rep: Reporter, seen: set<Guid>) {
    && row.guid.Some? && row.guid.value in seen
    && row.host == rep.host && row.cluster == rep.cluster && row.folder == None && row.tags == {}
  }

  ghost predicate Indexed(r: Recon, rep: Reporter, scope: set<Id>) {
    && (forall g :: g in r.existing ==>
          r.existing[g] in r.vms && r.vms[r.existing[g]].guid == Some(g) && r.vms[r.existing[g]].host in scope)
    && (forall v :: v in r.vms && r.vms[v].host in scope && r.vms[v].guid.Some? ==>
          r.vms[v].guid.value in r.existing && r.existing[r.vms[v].guid.value] == v)
    && (forall g :: g in r.seen ==> g in r.existing && r.vms[r.existing[g]].host == rep.host)
  }

  ghost predicate Walked(s: State, r: Recon, rep: Reporter, scope: set<Id>) {
    && Indexed(r, rep, scope) && rep.host in scope && s.nextId <= r.nextId
    && (forall v :: v in s.vms ==> v in r.vms && Carried(s.vms[v], r.vms[v], rep, scope, r.seen))
    && (forall v :: v in r.vms ==> v < r.nextId && (v in s.vms || (v >= s.nextId && Added(r.vms[v], rep, r.seen))))
  }

  // What taking in one entry does, without the columns.
  ghost predicate Took(r: Recon, r': Recon, g: Guid, rep: Reporter)
    requires IndexSound(r)
  {
    var isNew := g !in r.existing;
    var id := if isNew then r.nextId else r.existing[g];
    && r'.existing == r.existing[g := id] && r'.seen == r.seen + {g}
    && r'.nextId == (if isNew then r.nextId + 1 else r.nextId)
    && r'.vms.Keys == r.vms.Keys + {id} && (forall v :: v in r.vms && v != id ==> r'.vms[v] == r.vms[v])
    && r'.vms[id].host == rep.host && r'.vms[id].cluster == rep.cluster
    && r'.vms[id].guid == (if isNew then Some(g) else r.vms[id].guid)
    && r'.vms[id].folder == (if isNew then None else r.vms[id].folder)
    && r'.vms[id].tags == (if isNew then {} else r.vms[id].tags)
  }

  lemma UpsertTakes(r: Recon, g: Guid, raw: Raw, rep: Reporter)
    requires IndexSound(r)
    ensures Took(r, Upsert(r, g, raw, rep), g, rep)
  {
  }

  lemma TookIndexed(r: Recon, r': Recon, g: Guid, rep: Reporter, scope: set<Id>)
    requires IndexSound(r) && Took(r, r', g, rep) && Indexed(r, rep, scope) && rep.host in scope
    requires forall v :: v in r.vms ==> v < r.nextId
    ensures Indexed(r', rep, scope)
  {
  }

  lemma TookCarries(s: State, r: Recon, r': Recon, g: Guid, rep: Reporter, scope: set<Id>, v: Id)
    requires FreshIds(s) && IndexSound(r) && Took(r, r', g, rep) && Walked(s, r, rep, scope) && v in s.vms
    ensures v in r'.vms && Carried(s.vms[v], r'.vms[v], rep, scope, r'.seen)
  {
    assert Carried(s.vms[v], r.vms[v], rep, scope, r.seen);
  }

  lemma TookAdds(s: State, r: Recon, r': Recon, g: Guid, rep: Reporter, scope: set<Id>, v: Id)
    requires FreshIds(s) && IndexSound(r) && Took(r, r', g, rep) && Walked(s, r, rep, scope) && v in r'.vms
    ensures v < r'.nextId && (v in s.vms || (v >= s.nextId && Added(r'.vms[v], rep, r'.seen)))
  {
    if v in r.vms && v !in s.vms { assert Added(r.vms[v], rep, r.seen); }
  }

  lemma TookWalked(s: State, r: Recon, r': Recon, g: Guid, rep: Reporter, scope: set<Id>)
    requires FreshIds(s) && IndexSound(r) && Took(r, r', g, rep) && Walked(s, r, rep, scope)
    ensures Walked(s, r', rep, scope)
  {
    TookIndexed(r, r', g, rep, scope);
    forall v | v in s.vms ensures v in r'.vms && Carried(s.vms[v], r'.vms[v], rep, scope, r'.seen) {
      TookCarries(s, r, r', g, rep, scope, v);
    }
    forall v | v in r'.vms ensures v < r'.nextId && (v in s.vms || (v >= s.nextId && Added(r'.vms[v], rep, r'.seen))) {
      TookAdds(s, r, r', g, rep, scope, v);
    }
  }

  // Either nothing happens to the rows and what was seen, or one entry is taken in.
  lemma StepTakes(w: Recon, it: Item, rep: Reporter)
    requires IndexSound(w)
    ensures StepItem(w, it, rep) == w || StepItem(w, it, rep) == w.(raised := true)
      || (ListedBy(it).Some? && Took(w, StepItem(w, it, rep), ListedBy(it).value, rep))
  {
    if it.Item? && GuidOf(it.raw).Some? { UpsertTakes(w, GuidOf(it.raw).value, it.raw, rep); }
  }

  lemma {:induction false} WalkWalks(s: State, r: Recon, items: seq<Item>, rep: Reporter, scope: set<Id>)
    requires FreshIds(s) && IndexSound(r) && Walked(s, r, rep, scope)
    ensures Walked(s, Walk(r, items, rep), rep, scope)
  {
    if items != [] {
      var init, it := items[..|items| - 1], items[|items| - 1];
      WalkWalks(s, r, init, rep, scope);
      StepWalks(s, Walk(r, init, rep), it, rep, scope);
    }
  }

  lemma StepWalks(s: State, w: Recon, it: Item, rep: Reporter, scope: set<Id>)
    requires FreshIds(s) && IndexSound(w) && Walked(s, w, rep, scope)
    ensures Walked(s, StepItem(w, it, rep), rep, scope)
  {
    StepTakes(w, it, rep);
    var w' := StepItem(w, it, rep);
    if w'.vms != w.vms || w'.seen != w.seen || w'.existing != w.existing || w'.nextId != w.nextId {
      TookWalked(s, w, w', ListedBy(it).value, rep, scope);
    }
  }

  lemma ListedOfOneMore(items: seq<Item>)
    requires items != []
    ensures var g := ListedBy(items[|items| - 1]);
      Listed(items) == Listed(items[..|items| - 1]) + if g.Some? then {g.value} else {}
  {
    var init := items[..|items| - 1];
    forall g | g in Listed(items) ensures g in Listed(init) || Some(g) == ListedBy(items[|items| - 1]) {
      var i :| 0 <= i < |items| && ListedBy(items[i]) == Some(g);
      assert i < |init| ==> init[i] == items[i];
    }
    forall g | g in Listed(init) ensures g in Listed(items) {
      var i :| 0 <= i < |init| && ListedBy(init[i]) == Some(g);
      assert items[i] == init[i];
    }
  }

  // What has been seen after a prefix without malformed entries.
  ghost predicate SeenFrom(r: Recon, w: Recon, listed: set<Guid>, rep: Reporter) {
    && w.seen == (set g | g in listed && (g in r.existing || g !in rep.tombstoned))
    && w.existing.Keys == r.existing.Keys + w.seen
  }

  lemma StepSees(r: Recon, w: Recon, it: Item, listed: set<Guid>, rep: Reporter)
    requires IndexSound(w) && SeenFrom(r, w, listed, rep) && !w.raised && it.Item?
    ensures !StepItem(w, it, rep).raised
    ensures SeenFrom(r, StepItem(w, it, rep), listed + (if ListedBy(it).Some? then {ListedBy(it).value} else {}), rep)
  {
    StepTakes(w, it, rep);
  }

  /** The walk raises exactly on a malformed entry; if not, it has seen what was acceptable. */
  lemma {:induction false} WalkSees(r: Recon, items: seq<Item>, rep: Reporter)
    requires IndexSound(r) && !r.raised && r.seen == {}
    ensures Walk(r, items, rep).raised <==> !WellFormed(items)
    ensures WellFormed(items) ==> SeenFrom(r, Walk(r, items, rep), Listed(items), rep)
  {
    if items != [] {
      var init := items[..|items| - 1];
      WalkSees(r, init, rep);
      ListedOfOneMore(items);
      assert forall i :: 0 <= i < |init| ==> items[i] == init[i];
      if WellFormed(items) {
        StepSees(r, Walk(r, init, rep), items[|items| - 1], Listed(init), rep);
      }
    }
  }

  lemma IndexIsExact(s: State, h: Id)
    requires Readable(s, h)
    ensures Indexed(Start(s, h), Reporting(s, h), ScopeHosts(s.hosts, h))
  {
    var scope := ScopeHosts(s.hosts, h);
    ScopeIsUnique(s, h);
    IndexIsSound(s.vms, scope, s.nextId);
    IndexIsComplete(s.vms, scope, s.nextId);
  }

  lemma StartWalks(s: State, h: Id)
    requires Readable(s, h)
    ensures Walked(s, Start(s, h), Reporting(s, h), ScopeHosts(s.hosts, h))
    ensures Start(s, h).existing.Keys == KnownGuids(s, h)
  {
    IndexIsExact(s, h);
    var existing := Start(s, h).existing;
    forall g | g in KnownGuids(s, h) ensures g in existing {
      var v :| v in s.vms && InScope(s, h, v) && s.vms[v].guid.value == g;
      assert existing[g] == v;
    }
    forall g | g in existing ensures g in KnownGuids(s, h) {
      assert InScope(s, h, existing[g]);
    }
  }

  /** After a whole walk: who is where, and what has been seen. */
  lemma FinishedWalks(s: State, h: Id, items: seq<Item>)
    requires Readable(s, h)
    ensures var r := Finished(s, h, items);
      && Walked(s, r, Reporting(s, h), ScopeHosts(s.hosts, h))
      && (r.raised <==> !WellFormed(items))
      && (!r.raised ==> r.seen == Accepted(s, h, items))
  {
    StartWalks(s, h);
    WalkWalks(s, Start(s, h), items, Reporting(s, h), ScopeHosts(s.hosts, h));
    WalkSees(Start(s, h), items, Reporting(s, h));
  }

  // ---- exact reconciliation ----------------------------------------------------------------------------

  /** What becomes of a row that was there: taken over when its GUID is accepted in its scope,
      removed when its own host no longer reports it, untouched otherwise. */
  ghost predicate RowFate(s: State, h: Id, items: seq<Item>, vms: map<Id, Vm>, v: Id)
    requires h in s.hosts && v in s.vms
  {
    var was := s.vms[v];
    if InScope(s, h, v) && was.guid.value in Accepted(s, h, items) then
      && v in vms && vms[v].host == h && vms[v].cluster == s.hosts[h].cluster
      && vms[v].guid == was.guid && vms[v].folder == was.folder && vms[v].tags == was.tags
    else if was.host == h && was.guid.Some? then v !in vms
    else v in vms && vms[v] == was
  }

  ghost predicate NewRow(s: State, h: Id, items: seq<Item>, vms: map<Id, Vm>, v: Id)
    requires h in s.hosts && v in vms
  {
    && v >= s.nextId && vms[v].host == h && vms[v].cluster == s.hosts[h].cluster
    && vms[v].guid.Some? && vms[v].guid.value in Accepted(s, h, items) && vms[v].guid.value !in KnownGuids(s, h)
    && vms[v].folder == None && vms[v].tags == {}
  }

  // The finished walk of a well-formed snapshot, and the table it leaves.
  lemma WalkOutcome(s: State, h: Id, items: seq<Item>) returns (r: Recon)
    requires Readable(s, h) && WellFormed(items)
    ensures r == Finished(s, h, items) && IndexSound(r) && !r.raised
    ensures Walked(s, r, Reporting(s, h), ScopeHosts(s.hosts, h)) && r.seen == Accepted(s, h, items)
    ensures r.existing.Keys == KnownGuids(s, h) + r.seen
    ensures SnapshotSpec(s, h, items).vms == r.vms - RemovedRows(r, h)
  {
    FinishedWalks(s, h, items);
    r := Finished(s, h, items);
    StartWalks(s, h);
    WalkSees(Start(s, h), items, Reporting(s, h));
  }

  lemma RowMeetsFate(s: State, h: Id, items: seq<Item>, r: Recon, v: Id)
    requires Readable(s, h) && IndexSound(r) && Walked(s, r, Reporting(s, h), ScopeHosts(s.hosts, h))
    requires r.seen == Accepted(s, h, items) && v in s.vms
    ensures RowFate(s, h, items, r.vms - RemovedRows(r, h), v)
  {
    assert Carried(s.vms[v], r.vms[v], Reporting(s, h), ScopeHosts(s.hosts, h), r.seen);
    assert Unreported(r, v, h) <==> v in RemovedRows(r, h);
  }

  lemma AddedIsNew(s: State, h: Id, items: seq<Item>, r: Recon, v: Id)
    requires Readable(s, h) && IndexSound(r) && Walked(s, r, Reporting(s, h), ScopeHosts(s.hosts, h))
    requires r.seen == Accepted(s, h, items) && v in r.vms && v !in s.vms
    ensures NewRow(s, h, items, r.vms, v)
  {
    var g := r.vms[v].guid.value;
    forall u | u in s.vms && InScope(s, h, u) ensures s.vms[u].guid.value != g {
      assert Carried(s.vms[u], r.vms[u], Reporting(s, h), ScopeHosts(s.hosts, h), r.seen);
      assert r.existing[g] == v;
    }
  }

  lemma RowsReconciled(s: State, h: Id, items: seq<Item>)
    requires Readable(s, h) && WellFormed(items)
    ensures var vms := SnapshotSpec(s, h, items).vms;
      && (forall v :: v in s.vms ==> RowFate(s, h, items, vms, v))
      && (forall v :: v in vms && v !in s.vms ==> NewRow(s, h, items, vms, v))
  {
    var r := WalkOutcome(s, h, items);
    forall v | v in s.vms ensures RowFate(s, h, items, r.vms - RemovedRows(r, h), v) {
      RowMeetsFate(s, h, items, r, v);
    }
    forall v | v in r.vms && v !in s.vms ensures NewRow(s, h, items, r.vms, v) {
      AddedIsNew(s, h, items, r, v);
    }
  }

  lemma SeenIsKept(r: Recon, h: Id, rep: Reporter, scope: set<Id>)
    requires IndexSound(r) && Indexed(r, rep, scope) && rep.host == h && h in scope
    ensures GuidsOn(r.vms - RemovedRows(r, h), h) == r.seen
  {
    var vms := r.vms - RemovedRows(r, h);
    forall g | g in GuidsOn(vms, h) ensures g in r.seen {
      var v :| v in vms && vms[v].host == h && vms[v].guid == Some(g);
      assert !Unreported(r, v, h);
    }
    forall g | g in r.seen ensures g in GuidsOn(vms, h) {
      assert !Unreported(r, r.existing[g], h);
      assert r.existing[g] in vms && vms[r.existing[g]].guid == Some(g);
    }
  }

  lemma GuidsReconciled(s: State, h: Id, items: seq<Item>)
    requires Readable(s, h) && WellFormed(items)
    ensures GuidsOn(SnapshotSpec(s, h, items).vms, h) == Accepted(s, h, items)
  {
    var r := WalkOutcome(s, h, items);
    SeenIsKept(r, h, Reporting(s, h), ScopeHosts(s.hosts, h));
  }

  lemma TombsReconciled(s: State, h: Id, items: seq<Item>)
    requires Readable(s, h) && WellFormed(items)
    ensures var s' := SnapshotSpec(s, h, items);
      && Tombstoned(s'.tombs, h, s.now) == Tombstoned(s.tombs, h, s.now) * Accepted(s, h, items)
      && forall k :: k in s.tombs && k.host != h ==> k in s'.tombs && s'.tombs[k] == s.tombs[k]
  {
    FinishedWalks(s, h, items);
    var t, t' := s.tombs, SnapshotSpec(s, h, items).tombs;
    var accepted := Accepted(s, h, items);
    forall g | g in Tombstoned(t', h, s.now) ensures g in Tombstoned(t, h, s.now) * accepted {
      assert TombKey(h, g) in t';
    }
    forall g | g in Tombstoned(t, h, s.now) * accepted ensures g in Tombstoned(t', h, s.now) {
      assert TombKey(h, g) in t && TombKey(h, g) in t';
    }
  }

  /** One snapshot, exactly. The GUIDs on the host are the accepted ones; every old row meets
      its fate; new rows start outside folders and tags; and the tombstones left for this host
      are those whose GUID was seen again. */
  lemma SnapshotReconciles(s: State, h: Id, items: seq<Item>)
    requires Readable(s, h) && WellFormed(items)
    ensures var s' := SnapshotSpec(s, h, items);
      && GuidsOn(s'.vms, h) == Accepted(s, h, items)
      && (forall v :: v in s.vms ==> RowFate(s, h, items, s'.vms, v))
      && (forall v :: v in s'.vms && v !in s.vms ==> NewRow(s, h, items, s'.vms, v))
      && Tombstoned(s'.tombs, h, s.now) == Tombstoned(s.tombs, h, s.now) * Accepted(s, h, items)
  {
    GuidsReconciled(s, h, items);
    RowsReconciled(s, h, items);
    TombsReconciled(s, h, items);
  }

  /** A snapshot with one malformed entry leaves every row as it was. */
  lemma MalformedChangesNoRow(s: State, h: Id, items: seq<Item>)
    requires Readable(s, h) && !WellFormed(items)
    ensures SnapshotSpec(s, h, items).vms == s.vms && SnapshotSpec(s, h, items).tombs == s.tombs
    ensures SnapshotSpec(s, h, items).events == s.events
  {
    FinishedWalks(s, h, items);
  }

  // ---- what "accepted" means, on the payload and the tables ----------------------------------

  /** The entry names GUID `g`: under "id", or under "vmId" when "id" holds no text. */
  predicate NamesGuid(it: Item, g: Guid) {
    && it.Item? && g != ""
    && (if "id" in it.raw && it.raw["id"].Str? && it.raw["id"].s != "" then it.raw["id"] == Str(g)
        else "vmId" in it.raw && it.raw["vmId"] == Str(g))
  }

  lemma ListedMeans(items: seq<Item>, g: Guid)
    ensures g in Listed(items) <==> exists i :: 0 <= i < |items| && NamesGuid(items[i], g)
  {
    assert forall i :: 0 <= i < |items| ==> (NamesGuid(items[i], g) <==> ListedBy(items[i]) == Some(g));
  }

  /** A VM of the host's cluster, or of the standalone host itself, has that GUID. */
  ghost predicate HasRow(s: State, h: Id, g: Guid)
    requires h in s.hosts
  {
    exists v :: v in s.vms && s.vms[v].guid == Some(g) && Reaches(s, h, s.vms[v].host)
  }

  predicate Reaches(s: State, h: Id, k: Id)
    requires h in s.hosts
  {
    if s.hosts[h].cluster.None? then k == h else k in s.hosts && s.hosts[k].cluster == s.hosts[h].cluster
  }

  lemma KnownMeans(s: State, h: Id, g: Guid)
    requires h in s.hosts
    ensures g in KnownGuids(s, h) <==> HasRow(s, h, g)
  {
    assert forall v :: v in s.vms && s.vms[v].guid == Some(g) ==> (InScope(s, h, v) <==> Reaches(s, h, s.vms[v].host));
  }

  predicate HasTombstone(s: State, h: Id, g: Guid) {
    TombKey(h, g) in s.tombs && s.now < s.tombs[TombKey(h, g)]
  }

  lemma TombstonedMeans(s: State, h: Id, g: Guid)
    ensures g in Tombstoned(s.tombs, h, s.now) <==> HasTombstone(s, h, g)
  {
    if g in Tombstoned(s.tombs, h, s.now) {
      var k :| k in s.tombs && k.host == h && s.now < s.tombs[k] && k.guid == g;
      assert k == TombKey(h, g);
    }
  }

  /** A GUID is accepted exactly when an entry names it and it has a row within reach, or no
      tombstone that is still in force. */
  lemma AcceptedExactly(s: State, h: Id, items: seq<Item>, g: Guid)
    requires h in s.hosts
    ensures g in Accepted(s, h, items)
      <==> (exists i :: 0 <= i < |items| && NamesGuid(items[i], g)) && (HasRow(s, h, g) || !HasTombstone(s, h, g))
  {
    ListedMeans(items, g);
    KnownMeans(s, h, g);
    TombstonedMeans(s, h, g);
  }

  // ---- what a row holds afterwards --------------------------------------------------------------

  function ByReport(rep: Reporter): Teller {
    Teller(rep.host, rep.cluster, false, rep.now)
  }

  /** The row an accepted GUID starts from: the one it has in the scope, or a blank one. */
  function FirstRow(r: Recon, g: Guid, rep: Reporter): Vm
    requires IndexSound(r)
  {
    if g in r.existing then r.vms[r.existing[g]] else Inventory.Blank(rep.host, g)
  }

  // The walk has taken GUID `g`'s row through the entries so far.
  ghost predicate ToldSoFar(r: Recon, w: Recon, items: seq<Item>, g: Guid, rep: Reporter)
    requires IndexSound(r) && IndexSound(w)
  {
    var told := Told(FirstRow(r, g, rep), items, g, ByReport(rep));
    if g in w.existing then w.vms[w.existing[g]] == told else g !in r.existing && told == FirstRow(r, g, rep)
  }

  lemma StepCarries(r: Recon, w: Recon, items: seq<Item>, last: Item, g: Guid, rep: Reporter, scope: set<Id>)
    requires IndexSound(r) && IndexSound(w) && Indexed(w, rep, scope) && (forall v :: v in w.vms ==> v < w.nextId)
    requires ToldSoFar(r, w, items, g, rep) && last.Item? && !w.raised && (g in r.existing || g !in rep.tombstoned)
    ensures ToldSoFar(r, StepItem(w, last, rep), items + [last], g, rep)
  {
    ToldStep(FirstRow(r, g, rep), items, last, g, ByReport(rep));
    if ListedBy(last) != Some(g) {
      OtherEntriesLeaveIt(w, last, rep, scope, g);
    }
  }

  lemma OtherEntriesLeaveIt(w: Recon, it: Item, rep: Reporter, scope: set<Id>, g: Guid)
    requires IndexSound(w) && Indexed(w, rep, scope) && (forall v :: v in w.vms ==> v < w.nextId)
    requires ListedBy(it) != Some(g)
    ensures var w' := StepItem(w, it, rep);
      (g in w'.existing <==> g in w.existing)
      && (g in w.existing ==> w'.existing[g] == w.existing[g] && w'.vms[w.existing[g]] == w.vms[w.existing[g]])
  {
    StepTakes(w, it, rep);
  }

  /** Every accepted GUID's row is taken through all its entries. */
  lemma {:induction false} WalkCarries(s: State, r: Recon, items: seq<Item>, rep: Reporter, scope: set<Id>, g: Guid)
    requires FreshIds(s) && IndexSound(r) && Walked(s, r, rep, scope) && !r.raised && WellFormed(items)
    requires r.seen == {} && (g in r.existing || g !in rep.tombstoned)
    ensures ToldSoFar(r, Walk(r, items, rep), items, g, rep)
  {
    if items != [] {
      var init, last := items[..|items| - 1], items[|items| - 1];
      assert items == init + [last];
      WalkCarries(s, r, init, rep, scope, g);
      WalkWalks(s, r, init, rep, scope);
      WalkSees(r, init, rep);
      StepCarries(r, Walk(r, init, rep), init, last, g, rep, scope);
    }
  }

  /** The row of an accepted GUID after the snapshot: the row it had, or a blank one, taken
      through its entries. */
  lemma RowIsAsTold(s: State, h: Id, items: seq<Item>, v: Id, g: Guid)
    requires Readable(s, h) && WellFormed(items) && g in Accepted(s, h, items)
    requires var vms := SnapshotSpec(s, h, items).vms; v in vms && vms[v].host == h && vms[v].guid == Some(g)
    ensures SnapshotSpec(s, h, items).vms[v]
      == Told(FirstRow(Start(s, h), g, Reporting(s, h)), items, g, Teller(h, s.hosts[h].cluster, false, s.now))
  {
    StartWalks(s, h);
    var r := WalkOutcome(s, h, items);
    WalkCarries(s, Start(s, h), items, Reporting(s, h), ScopeHosts(s.hosts, h), g);
    assert r.vms[v] == SnapshotSpec(s, h, items).vms[v] && r.existing[g] == v;
  }

  lemma FirstRowIs(s: State, h: Id, g: Guid, v: Id)
    requires Readable(s, h)
    ensures InScope(s, h, v) && s.vms[v].guid == Some(g) ==> FirstRow(Start(s, h), g, Reporting(s, h)) == s.vms[v]
    ensures g !in KnownGuids(s, h) ==> FirstRow(Start(s, h), g, Reporting(s, h)) == Inventory.Blank(h, g)
  {
    StartWalks(s, h);
  }

  lemma NewRowIsUnknown(s: State, h: Id, items: seq<Item>, v: Id)
    requires Readable(s, h) && WellFormed(items) && v in SnapshotSpec(s, h, items).vms && v !in s.vms
    ensures SnapshotSpec(s, h, items).vms[v].guid.Some?
    ensures SnapshotSpec(s, h, items).vms[v].guid.value !in KnownGuids(s, h)
  {
    RowsReconciled(s, h, items);
    assert NewRow(s, h, items, SnapshotSpec(s, h, items).vms, v);
  }

  lemma OldRowKeepsGuid(s: State, h: Id, items: seq<Item>, v: Id)
    requires Readable(s, h) && WellFormed(items) && v in s.vms && v in SnapshotSpec(s, h, items).vms
    ensures SnapshotSpec(s, h, items).vms[v].guid == s.vms[v].guid
  {
    RowsReconciled(s, h, items);
    assert RowFate(s, h, items, SnapshotSpec(s, h, items).vms, v);
  }

  // The row an entry's GUID started from.
  ghost predicate StartsFrom(s: State, h: Id, v: Id, g: Guid, first: Vm)
    requires h in s.hosts
  {
    && (InScope(s, h, v) ==> first == s.vms[v])
    && (v !in s.vms ==> first == Vm(Some(g), h, None, None, {}, "Unknown", map[], None))
  }

  lemma StartOf(s: State, h: Id, items: seq<Item>, v: Id, g: Guid)
    requires Readable(s, h) && WellFormed(items) && v in SnapshotSpec(s, h, items).vms
    requires SnapshotSpec(s, h, items).vms[v].guid == Some(g)
    ensures StartsFrom(s, h, v, g, FirstRow(Start(s, h), g, Reporting(s, h)))
  {
    FirstRowIs(s, h, g, v);
    if v in s.vms { OldRowKeepsGuid(s, h, items, v); } else { NewRowIsUnknown(s, h, items, v); }
  }

  /** A row holds what its last entry in the snapshot says, on top of what its earlier entries
      left of the row there was (or of a blank one): state, columns, host and cluster. */
  lemma RowIsAsLastListed(s: State, h: Id, items: seq<Item>, i: nat, v: Id, g: Guid) returns (before: Vm)
    requires Readable(s, h) && WellFormed(items) && g in Accepted(s, h, items) && LastFor(items, |items|, i, g)
    requires var vms := SnapshotSpec(s, h, items).vms; v in vms && vms[v].host == h && vms[v].guid == Some(g)
    ensures RowContents.Holds(before, SnapshotSpec(s, h, items).vms[v], items[i].raw, h, s.hosts[h].cluster, false, s.now)
    ensures !Names(items[..i], g) ==> StartsFrom(s, h, v, g, before)
  {
    var first, who := FirstRow(Start(s, h), g, Reporting(s, h)), Teller(h, s.hosts[h].cluster, false, s.now);
    RowIsAsTold(s, h, items, v, g);
    StartOf(s, h, items, v, g);
    LastEntryHolds(first, items, i, g, who);
    before := Told(first, items[..i], g, who);
    if !Names(items[..i], g) { UnnamedStays(first, items[..i], g, who); }
  }

  // ---- the overlay -----------------------------------------------------------------------------------

  lemma {:induction false} WalkAgrees(r: Recon, items: seq<Item>, rep: Reporter)
    requires IndexSound(r) && Agree(r.vms, r.overlay)
    ensures Agree(Walk(r, items, rep).vms, Walk(r, items, rep).overlay)
  {
    if items != [] { WalkAgrees(r, items[..|items| - 1], rep); }
  }

  /** After a snapshot that committed, the overlay still says what the rows say. */
  lemma SnapshotKeepsAgreement(s: State, h: Id, items: seq<Item>)
    requires Readable(s, h) && WellFormed(items) && OverlayAgrees(s)
    ensures OverlayAgrees(SnapshotSpec(s, h, items))
  {
    FinishedWalks(s, h, items);
    WalkAgrees(Start(s, h), items, Reporting(s, h));
  }
}
