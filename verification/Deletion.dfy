/** Deleting a VM against the snapshots that still list it. */
module Deletion {
  import opened Wrappers
  import opened Model
  import opened CacheOps
  import opened Inventory
  import opened InventoryLaws
  import opened Responses
  import opened Invariants
  import opened SnapshotSteps
  import ResponseSteps

  /** A VM that was deleted on its host: buried there, and without a row in the host's scope. */
  ghost predicate Deleted(s: State, h: Id, g: Guid) {
    h in s.hosts && HasTombstone(s, h, g) && !HasRow(s, h, g)
  }

  lemma DeletedMeans(s: State, h: Id, g: Guid)
    requires h in s.hosts
    ensures Deleted(s, h, g) <==> g in Tombstoned(s.tombs, h, s.now) && g !in KnownGuids(s, h)
  {
    KnownMeans(s, h, g);
    TombstonedMeans(s, h, g);
  }

  /** The response that ends a delete. */
  predicate EndsDelete(s: State, h: Id, r: Response) {
    && Known(s, h, r) && s.tasks[r.task].kind.VmDelete? && r.status.SaysSucceeded?
  }

  lemma DeleteBlockIs(s: State, h: Id, r: Response, t: Task)
    requires t.kind.VmDelete? && t.status.Succeeded?
    ensures VmBlock(BlockOf(s), r, t, SenderOf(s, h)) == DeleteBlock(BlockOf(s), t, SenderOf(s, h))
  {
  }

  lemma DeleteLands(s: State, h: Id, r: Response, v: Id, g: Guid)
    requires EndsDelete(s, h, r) && v == s.tasks[r.task].targetId && v in s.vms && s.vms[v].guid == Some(g)
    ensures var s' := ResponseSpec(s, h, r);
      && s'.vms == s.vms - {v} && s'.hosts == s.hosts && s'.now == s.now
      && s'.tombs == s.tombs[TombKey(h, g) := s.now + 900 * 1_000_000]
  {
    EndedFields(s, h, r);
    DeleteBlockIs(s, h, r, Responses.Finished(s.tasks[r.task], r, s.now));
    assert ResponseSpec(s, h, r) == Ended(s, h, r);
  }

  /** A successful delete leaves the VM deleted, for as long as the tombstone lasts. */
  lemma DeleteDeletes(s: State, h: Id, r: Response, dt: nat)
    requires Sound(s) && EndsDelete(s, h, r) && h in s.hosts && dt < 900 * 1_000_000
    requires InScope(s, h, s.tasks[r.task].targetId)
    ensures var s' := ResponseSpec(s, h, r);
      Deleted(Later(s', dt), h, s.vms[s.tasks[r.task].targetId].guid.value)
  {
    var v := s.tasks[r.task].targetId;
    var g := s.vms[v].guid.value;
    DeleteLands(s, h, r, v, g);
    SoundIsReadable(s, h);
    ScopeIsUnique(s, h);
    var s' := ResponseSpec(s, h, r);
    var later := Later(s', dt);
    assert TombKey(h, g) in later.tombs && later.now < later.tombs[TombKey(h, g)];
    forall u | u in later.vms && InScope(later, h, u) ensures later.vms[u].guid.value != g {
      assert InScope(s, h, u) && (u != v ==> !Alike(s.vms[u], s.vms[v]));
    }
    DeletedMeans(later, h, g);
  }

  /** Whatever the next snapshot of that host lists, it never brings the row back, nor a row
      for it anywhere else in the host's scope. */
  lemma NextSnapshotRespectsDelete(s: State, h: Id, items: seq<Item>, g: Guid)
    requires Sound(s) && Deleted(s, h, g)
    ensures var s' := SnapshotSpec(s, h, items); s'.hosts == s.hosts && !HasRow(s', h, g)
  {
    NextSnapshotKnowsNot(s, h, items, g);
    KnownMeans(SnapshotSpec(s, h, items), h, g);
  }

  lemma NextSnapshotKnowsNot(s: State, h: Id, items: seq<Item>, g: Guid)
    requires Sound(s) && Deleted(s, h, g)
    ensures var s' := SnapshotSpec(s, h, items); s'.hosts == s.hosts && g !in KnownGuids(s', h)
  {
    DeletedMeans(s, h, g);
    var s' := SnapshotSpec(s, h, items);
    SnapshotSurroundings(s, h, items);
    SoundIsReadable(s, h);
    if WellFormed(items) {
      RowsReconciled(s, h, items);
      forall v | v in s'.vms && InScope(s', h, v) ensures s'.vms[v].guid.value != g {
        KnownAfter(s, h, items, v);
      }
    } else {
      MalformedChangesNoRow(s, h, items);
      forall v | v in s'.vms && InScope(s', h, v) ensures s'.vms[v].guid.value != g {
        assert InScope(s, h, v);
      }
    }
  }

  // A GUID in the scope afterwards was known before, or accepted.
  lemma KnownAfter(s: State, h: Id, items: seq<Item>, v: Id)
    requires Readable(s, h) && WellFormed(items)
    requires var s' := SnapshotSpec(s, h, items); s'.hosts == s.hosts && v in s'.vms && InScope(s', h, v)
    ensures SnapshotSpec(s, h, items).vms[v].guid.value in KnownGuids(s, h) + Accepted(s, h, items)
  {
    RowsReconciled(s, h, items);
    var vms := SnapshotSpec(s, h, items).vms;
    if v in s.vms {
      assert RowFate(s, h, items, vms, v);
      assert InScope(s, h, v) ==> s.vms[v].guid.value in KnownGuids(s, h);
    } else {
      assert NewRow(s, h, items, vms, v);
    }
  }

  /** Delete, then a stale snapshot within the tombstone's life: the VM stays deleted. */
  lemma DeleteThenSnapshot(s: State, h: Id, r: Response, dt: nat, items: seq<Item>, g: Guid)
    requires Sound(s) && EndsDelete(s, h, r) && h in s.hosts && dt < 900 * 1_000_000
    requires InScope(s, h, s.tasks[r.task].targetId) && s.vms[s.tasks[r.task].targetId].guid == Some(g)
    ensures NoRowFor(SnapshotSpec(Later(ResponseSpec(s, h, r), dt), h, items), h, g)
  {
    var deleted := ResponseSpec(s, h, r);
    DeleteDeletes(s, h, r, dt);
    ResponseSteps.ResponseSound(s, h, r);
    ResponseSteps.CacheOnlySound(deleted, Later(deleted, dt));
    NextSnapshotRespectsDelete(Later(deleted, dt), h, items, g);
  }

  ghost predicate NoRowFor(s: State, h: Id, g: Guid) {
    h in s.hosts && !HasRow(s, h, g)
  }

  /** The tombstone absorbs one snapshot only. Being left out, the GUID is not "seen", so its
      tombstone is cleared at once; from then on the VM comes back exactly when it is listed. */
  lemma SecondSnapshotExactly(s: State, h: Id, first: seq<Item>, second: seq<Item>, g: Guid)
    requires Sound(s) && Deleted(s, h, g) && WellFormed(first) && WellFormed(second)
    ensures var s1 := SnapshotSpec(s, h, first);
      g !in GuidsOn(s1.vms, h)
      && (g in GuidsOn(SnapshotSpec(s1, h, second).vms, h) <==> exists i :: 0 <= i < |second| && NamesGuid(second[i], g))
  {
    var s1 := SnapshotSpec(s, h, first);
    ListedMeans(second, g);
    DeletedMeans(s, h, g);
    NextSnapshotKnowsNot(s, h, first, g);
    SnapshotSurroundings(s, h, first);
    SoundIsReadable(s, h);
    TombsReconciled(s, h, first);
    GuidsReconciled(s, h, first);
    SnapshotSound(s, h, first);
    SoundIsReadable(s1, h);
    GuidsReconciled(s1, h, second);
  }
}
