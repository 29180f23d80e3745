/** Reconciling the VM table with a host's full inventory snapshot
    (apply_vm_inventory of app/services/inventory.py). */
module Inventory {
  import opened Wrappers
  import opened Model
  import opened VmRow
  import opened CacheOps
  import opened Audit

  // Who reports, and what was known when the snapshot was taken in.
  datatype Reporter = Reporter(host: Id, cluster: Option<Id>, tombstoned: set<Guid>, cfg: Settings, now: Time)

  // The handler's working set while it walks the snapshot.
  datatype Recon = Recon(
    vms: map<Id, Vm>,
    existing: map<Guid, Id>,
    seen: set<Guid>,
    overlay: map<Id, Cached>,
    nextId: Id,
    raised: bool)

  /** Hosts across which a GUID must be unique for this reporter. */
  function ScopeHosts(hosts: map<Id, Host>, h: Id): set<Id>
    requires h in hosts
  {
    if hosts[h].cluster.None? then {h}
    else set x | x in hosts && hosts[x].cluster == hosts[h].cluster
  }

  /** The rows with a GUID on those hosts, by GUID. */
  function Index(vms: map<Id, Vm>, scope: set<Id>, n: Id): map<Guid, Id> {
    if n == 0 then map[]
    else
      var rest := Index(vms, scope, n - 1);
      if n - 1 in vms && vms[n - 1].host in scope && vms[n - 1].guid.Some?
      then rest[vms[n - 1].guid.value := n - 1] else rest
  }

  function Blank(host: Id, guid: Guid): Vm {
    Vm(Some(guid), host, None, None, {}, "Unknown", map[], None)
  }

  /** Is this entry passed over as a leftover of a deleted VM? */
  predicate Stale(r: Recon, g: Guid, rep: Reporter) {
    g !in r.existing && g in rep.tombstoned
  }

  function Upsert(r: Recon, g: Guid, raw: Raw, rep: Reporter): Recon
    requires g in r.existing ==> r.existing[g] in r.vms
  {
    var isNew := g !in r.existing;
    var id := if isNew then r.nextId else r.existing[g];
    var row := WriteVmRowSpec(if isNew then Blank(rep.host, g) else r.vms[id], raw, rep.host, rep.cluster, false, rep.now);
    Recon(r.vms[id := row], r.existing[g := id], r.seen + {g},
          Overlaid(r.overlay, id, row.state, rep.cfg, rep.now),
          if isNew then r.nextId + 1 else r.nextId, false)
  }

  ghost predicate IndexSound(r: Recon) {
    forall g :: g in r.existing ==> r.existing[g] in r.vms
  }

  function StepItem(r: Recon, it: Item, rep: Reporter): (r': Recon)
    requires IndexSound(r)
    ensures IndexSound(r')
  {
    if r.raised || it.Malformed? then r.(raised := true)
    else
      var g := GuidOf(it.raw);
      if g.None? || Stale(r, g.value, rep) then r
      else Upsert(r, g.value, it.raw, rep)
  }

  function Walk(r: Recon, items: seq<Item>, rep: Reporter): (r': Recon)
    requires IndexSound(r)
    ensures IndexSound(r')
  {
    if items == [] then r
    else StepItem(Walk(r, items[..|items| - 1], rep), items[|items| - 1], rep)
  }

  // ---- rows the host no longer reports ---------------------------------------------------

  predicate Unreported(r: Recon, id: Id, host: Id)
    requires IndexSound(r)
  {
    && id in r.vms && r.vms[id].host == host
    && r.vms[id].guid.Some? && r.vms[id].guid.value in r.existing && r.existing[r.vms[id].guid.value] == id
    && r.vms[id].guid.value !in r.seen
  }

  /** A vm_delete task for this VM is still queued or running. */
  predicate DeleteInFlight(tasks: map<Id, Task>, vm: Id) {
    exists t :: t in tasks && tasks[t].targetId == vm && tasks[t].kind == VmDelete
             && (tasks[t].status.Queued? || tasks[t].status.Running?)
  }

  datatype Ledger = Ledger(events: map<Id, Event>, nextId: Id)

  /** One system event per removed row whose removal nobody asked for. */
  function RemovalEvents(l: Ledger, r: Recon, tasks: map<Id, Task>, host: Id, now: Time, n: Id): Ledger
    requires IndexSound(r)
  {
    if n == 0 then l
    else
      var rest := RemovalEvents(l, r, tasks, host, now, n - 1);
      var id := n - 1;
      if Unreported(r, id, host) && !DeleteInFlight(tasks, id) then
        Ledger(rest.events[rest.nextId := NewEvent(now, VmInventoryRemove, id, Some(r.vms[id].host), r.vms[id].cluster, None)],
               rest.nextId + 1)
      else rest
  }

  function Reporting(s: State, h: Id): Reporter
    requires h in s.hosts
  {
    Reporter(h, s.hosts[h].cluster, Tombstoned(s.tombs, h, s.now), s.cfg, s.now)
  }

  function Start(s: State, h: Id): (r: Recon)
    requires h in s.hosts
    ensures IndexSound(r)
  {
    IndexIsSound(s.vms, ScopeHosts(s.hosts, h), s.nextId);
    Recon(s.vms, Index(s.vms, ScopeHosts(s.hosts, h), s.nextId), {}, s.overlay, s.nextId, false)
  }

  function Finished(s: State, h: Id, items: seq<Item>): (r: Recon)
    requires h in s.hosts
    ensures IndexSound(r)
  {
    Walk(Start(s, h), items, Reporting(s, h))
  }

  function RemovedRows(r: Recon, host: Id): set<Id>
    requires IndexSound(r)
  {
    set id | id in r.vms && Unreported(r, id, host)
  }

  /** What a walk that did not raise leaves: its rows but the unreported ones, and their events. */
  function Committed(s: State, h: Id, r: Recon): State
    requires IndexSound(r)
  {
    var gone := RemovedRows(r, h);
    var l := RemovalEvents(Ledger(s.events, r.nextId), r, s.tasks, h, s.now, r.nextId);
    s.(vms := r.vms - gone,
       overlay := r.overlay - gone,
       events := l.events,
       nextId := l.nextId,
       tombs := Unburied(s.tombs, h, Tombstoned(s.tombs, h, s.now) - r.seen))
  }

  /** The whole transaction. When an entry raises, the rows are rolled back but what was
      already written to the cache stays. */
  function SnapshotSpec(s: State, h: Id, items: seq<Item>): State {
    if h !in s.hosts then s
    else
      var r := Finished(s, h, items);
      if r.raised then s.(overlay := r.overlay, nextId := r.nextId) else Committed(s, h, r)
  }

  lemma IndexIsSound(vms: map<Id, Vm>, scope: set<Id>, n: Id)
    ensures forall g :: g in Index(vms, scope, n) ==>
      var id := Index(vms, scope, n)[g]; id in vms && id < n && vms[id].guid == Some(g) && vms[id].host in scope
  {
  }

  // ---- the handler ---------------------------------------------------------------------------

  method BuildIndex(db: Database, scope: set<Id>) returns (existing: map<Guid, Id>)
    ensures existing == Index(db.vms, scope, db.nextId)
  {
    existing := map[];
    for id := 0 to db.nextId
      invariant existing == Index(db.vms, scope, id)
    {
      if id in db.vms && db.vms[id].host in scope && db.vms[id].guid.Some? {
        existing := existing[db.vms[id].guid.value := id];
      }
    }
  }

  /** One entry that names a GUID and is not stale: update its row, or insert one. */
  method TakeIn(db: Database, cache: Cache, known: map<Guid, Id>, seen: set<Guid>, g: Guid, raw: Raw, rep: Reporter)
    returns (existing: map<Guid, Id>)
    requires g in known ==> known[g] in db.vms
    modifies db`vms, db`nextId, cache`overlay
    ensures Recon(db.vms, existing, seen + {g}, cache.overlay, db.nextId, false)
         == Upsert(old(Recon(db.vms, known, seen, cache.overlay, db.nextId, false)), g, raw, rep)
  {
    existing := known;
    var id;
    if g !in existing {
      id := db.NewId();
      db.vms := db.vms[id := Blank(rep.host, g)];
      existing := existing[g := id];
    } else {
      id := existing[g];
    }
    var row := WriteVmRow(db.vms[id], raw, rep.host, rep.cluster, false, rep.now);
    db.vms := db.vms[id := row];
    SetVmState(cache, id, row.state, rep.cfg, rep.now);
  }

  method WalkItems(db: Database, cache: Cache, start: map<Guid, Id>, items: seq<Item>, rep: Reporter)
    returns (existing: map<Guid, Id>, seen: set<Guid>, raised: bool)
    requires forall g :: g in start ==> start[g] in db.vms
    modifies db`vms, db`nextId, cache`overlay
    ensures Recon(db.vms, existing, seen, cache.overlay, db.nextId, raised)
         == Walk(old(Recon(db.vms, start, {}, cache.overlay, db.nextId, false)), items, rep)
  {
    existing, seen, raised := start, {}, false;
    ghost var r0 := Recon(db.vms, start, {}, cache.overlay, db.nextId, false);
    var i := 0;
    while i < |items| && !raised
      invariant 0 <= i <= |items|
      invariant Recon(db.vms, existing, seen, cache.overlay, db.nextId, raised) == Walk(r0, items[..i], rep)
      decreases |items| - i
    {
      WalkStep(r0, items, i, rep);
      ghost var r := Walk(r0, items[..i], rep);
      assert IndexSound(r);
      if items[i].Malformed? {
        raised := true;
      } else {
        var g := GuidOf(items[i].raw);
        if g.Some? && (g.value in existing || g.value !in rep.tombstoned) {
          existing := TakeIn(db, cache, existing, seen, g.value, items[i].raw, rep);
          seen := seen + {g.value};
        }
      }
      i := i + 1;
    }
    if raised { WalkAfterRaise(r0, items, i, rep); }
    assert items[..|items|] == items;
  }

  lemma WalkStep(r: Recon, items: seq<Item>, i: nat, rep: Reporter)
    requires IndexSound(r) && i < |items|
    ensures Walk(r, items[..i + 1], rep) == StepItem(Walk(r, items[..i], rep), items[i], rep)
  {
    assert items[..i + 1][..i] == items[..i];
  }

  lemma {:induction false} WalkAfterRaise(r: Recon, items: seq<Item>, i: nat, rep: Reporter)
    requires IndexSound(r) && i <= |items| && Walk(r, items[..i], rep).raised
    ensures Walk(r, items, rep) == Walk(r, items[..i], rep)
    decreases |items|
  {
    if i == |items| {
      assert items[..i] == items;
    } else {
      var init := items[..|items| - 1];
      assert init[..i] == items[..i];
      WalkAfterRaise(r, init, i, rep);
    }
  }

  function RemovedBelow(r: Recon, host: Id, n: Id): set<Id>
    requires IndexSound(r)
  {
    set id | id in r.vms && id < n && Unreported(r, id, host)
  }

  lemma RemovedStep<V>(r: Recon, host: Id, n: Id, m: map<Id, V>)
    requires IndexSound(r)
    ensures m - RemovedBelow(r, host, n + 1)
         == if Unreported(r, n, host) then m - RemovedBelow(r, host, n) - {n} else m - RemovedBelow(r, host, n)
  {
    assert RemovedBelow(r, host, n + 1)
        == RemovedBelow(r, host, n) + (if Unreported(r, n, host) then {n} else {});
  }

  method RemoveUnreported(db: Database, cache: Cache, ghost r: Recon, existing: map<Guid, Id>, seen: set<Guid>, h: Id, now: Time)
    requires IndexSound(r) && r.vms == db.vms && r.existing == existing && r.seen == seen
    requires r.overlay == cache.overlay && r.nextId == db.nextId
    requires forall id :: id in db.vms ==> id < db.nextId
    modifies db`vms, db`events, db`nextId, cache`overlay
    ensures db.vms == r.vms - RemovedRows(r, h)
    ensures cache.overlay == r.overlay - RemovedRows(r, h)
    ensures Ledger(db.events, db.nextId)
         == RemovalEvents(Ledger(old(db.events), r.nextId), r, db.tasks, h, now, r.nextId)
  {
    var rows := db.vms;
    var n := db.nextId;
    assert RemovedBelow(r, h, 0) == {};
    for id := 0 to n
      invariant db.vms == r.vms - RemovedBelow(r, h, id)
      invariant cache.overlay == r.overlay - RemovedBelow(r, h, id)
      invariant Ledger(db.events, db.nextId) == RemovalEvents(Ledger(old(db.events), r.nextId), r, db.tasks, h, now, id)
    {
      RemovedStep(r, h, id, r.vms);
      RemovedStep(r, h, id, r.overlay);
      if id in rows && rows[id].host == h && rows[id].guid.Some?
         && rows[id].guid.value in existing && existing[rows[id].guid.value] == id && rows[id].guid.value !in seen {
        assert Unreported(r, id, h);
        if !DeleteInFlight(db.tasks, id) {
          Record(db, now, VmInventoryRemove, id, Some(rows[id].host), rows[id].cluster, None);
        }
        ClearVmState(cache, id);
        db.vms := db.vms - {id};
      }
    }
    assert RemovedRows(r, h) == RemovedBelow(r, h, n);
  }

  /** Take in one full snapshot of host `h`. */
  method ApplyVmInventory(db: Database, cache: Cache, cfg: Settings, now: Time, h: Id, items: seq<Item>)
    requires forall id :: id in db.vms ==> id < db.nextId
    modifies db, cache
    ensures Snap(db, cache, cfg, now) == SnapshotSpec(old(Snap(db, cache, cfg, now)), h, items)
  {
    if h !in db.hosts {
      return;
    }
    ghost var s := Snap(db, cache, cfg, now);
    var rep := Reporter(h, db.hosts[h].cluster, Tombstoned(cache.tombs, h, now), cfg, now);
    var saved := db.vms;
    var start := BuildIndex(db, ScopeHosts(db.hosts, h));
    IndexIsSound(db.vms, ScopeHosts(db.hosts, h), db.nextId);
    var existing, seen, raised := WalkItems(db, cache, start, items, rep);
    ghost var r := Finished(s, h, items);
    if raised {
      db.vms := saved;
      return;
    }
    WalkKeepsIdsFresh(Start(s, h), items, rep);
    RemoveUnreported(db, cache, r, existing, seen, h, now);
    ClearVmsDeleted(cache, h, rep.tombstoned - seen);
  }

  lemma {:induction false} WalkKeepsIdsFresh(r: Recon, items: seq<Item>, rep: Reporter)
    requires IndexSound(r) && forall id :: id in r.vms ==> id < r.nextId
    ensures var r' := Walk(r, items, rep);
      r.nextId <= r'.nextId && forall id :: id in r'.vms ==> id < r'.nextId
  {
    if items != [] {
      WalkKeepsIdsFresh(r, items[..|items| - 1], rep);
    }
  }
}
