/** A snapshot keeps the tables sound. */
module SnapshotSteps {
  import opened Wrappers
  import opened Model
  import opened Audit
  import opened Inventory
  import opened InventoryLaws
  import opened Invariants
  import opened RowSteps
  import opened LedgerSteps

  // ---- snapshots ------------------------------------------------------------------------------------

  lemma SoundIsReadable(s: State, h: Id)
    requires Sound(s) && h in s.hosts
    ensures Readable(s, h)
  {
    assert Holds(Ids, s) && Holds(Places, s) && Holds(Guids, s);
  }

  lemma FatedRowFits(s: State, h: Id, items: seq<Item>, vms: map<Id, Vm>, v: Id)
    requires Readable(s, h) && v in s.vms && v in vms && RowFate(s, h, items, vms, v)
    ensures Carries(s, s.vms[v], vms[v])
  {
  }

  // A row off the scope's hosts is as it was, and every row carries its host's cluster.
  lemma OutsideScope(s: State, h: Id, r: Recon, v: Id)
    requires Readable(s, h) && Walked(s, r, Reporting(s, h), ScopeHosts(s.hosts, h)) && v in r.vms
    ensures r.vms[v].host in s.hosts && r.vms[v].cluster == s.hosts[r.vms[v].host].cluster
    ensures r.vms[v].host !in ScopeHosts(s.hosts, h) ==> v in s.vms && r.vms[v] == s.vms[v]
  {
    if v in s.vms {
      assert Carried(s.vms[v], r.vms[v], Reporting(s, h), ScopeHosts(s.hosts, h), r.seen);
    }
  }

  lemma WalkedPair(s: State, h: Id, r: Recon, a: Id, b: Id)
    requires Readable(s, h) && Walked(s, r, Reporting(s, h), ScopeHosts(s.hosts, h))
    requires a in r.vms && b in r.vms && a != b && Alike(r.vms[a], r.vms[b])
    ensures !SameScope(r.vms[a], r.vms[b])
  {
    OutsideScope(s, h, r, a);
    OutsideScope(s, h, r, b);
    var scope := ScopeHosts(s.hosts, h);
    if r.vms[a].host !in scope && r.vms[b].host !in scope {
      assert !SameScope(s.vms[a], s.vms[b]);
    }
  }

  lemma ReconciledUnique(s: State, h: Id, items: seq<Item>)
    requires Readable(s, h) && WellFormed(items)
    ensures GuidsUnique(SnapshotSpec(s, h, items).vms)
  {
    var r := WalkOutcome(s, h, items);
    forall a, b | a in r.vms && b in r.vms && a != b && r.vms[a].guid.Some? && r.vms[a].guid == r.vms[b].guid
      ensures !SameScope(r.vms[a], r.vms[b])
    {
      WalkedPair(s, h, r, a, b);
    }
  }

  lemma ReconciledFits(s: State, h: Id, items: seq<Item>)
    requires Readable(s, h) && WellFormed(items)
    ensures RowsFit(s, SnapshotSpec(s, h, items).vms)
  {
    var vms := SnapshotSpec(s, h, items).vms;
    RowsReconciled(s, h, items);
    forall v | v in vms ensures (v in s.vms && Carries(s, s.vms[v], vms[v])) || Starts(s, vms[v]) {
      if v in s.vms { FatedRowFits(s, h, items, vms, v); } else { assert NewRow(s, h, items, vms, v); }
    }
  }

  lemma SnapshotRows(s: State, h: Id, items: seq<Item>)
    requires Sound(s) && h in s.hosts
    ensures Keeps(Guids, SnapshotSpec(s, h, items)) && RowsFit(s, SnapshotSpec(s, h, items).vms)
  {
    SoundIsReadable(s, h);
    if WellFormed(items) {
      ReconciledFits(s, h, items);
      ReconciledUnique(s, h, items);
    } else {
      MalformedChangesNoRow(s, h, items);
      KeptFits(s, s.vms);
    }
    UniqueIsKept(SnapshotSpec(s, h, items));
  }

  // The rest of the state is not a snapshot's business.
  ghost predicate OnlyRows(s: State, s': State) {
    s' == s.(vms := s'.vms, overlay := s'.overlay, events := s'.events, tombs := s'.tombs, nextId := s'.nextId)
  }

  lemma CommittedSurroundings(s: State, h: Id, r: Recon)
    requires IndexSound(r)
    ensures OnlyRows(s, Committed(s, h, r))
  {
  }

  lemma SnapshotSurroundings(s: State, h: Id, items: seq<Item>)
    ensures OnlyRows(s, SnapshotSpec(s, h, items))
  {
    if h in s.hosts {
      var r := Inventory.Finished(s, h, items);
      CommittedSurroundings(s, h, r);
      assert SnapshotSpec(s, h, items) == if r.raised then s.(overlay := r.overlay, nextId := r.nextId) else Committed(s, h, r);
    }
  }

  lemma FitsKeepTags(s: State, s': State)
    requires RowsFit(s, s'.vms) && SameSurroundings(s, s')
    ensures SameTags(s, s')
  {
  }

  lemma {:induction false} WalkOverlayFresh(r: Recon, items: seq<Item>, rep: Reporter)
    requires IndexSound(r) && (forall v :: v in r.vms || v in r.overlay ==> v < r.nextId)
    ensures var w := Walk(r, items, rep);
      r.nextId <= w.nextId && forall v :: v in w.vms || v in w.overlay ==> v < w.nextId
  {
    if items != [] {
      WalkOverlayFresh(r, items[..|items| - 1], rep);
    }
  }

  ghost predicate EventsAndKeys(s: State, s': State) {
    && OnlyPlain(s.events, s'.events) && s.nextId <= s'.nextId
    && (forall e :: e in s'.events ==> e in s.events || e < s'.nextId)
    && (forall v :: v in s'.vms || v in s'.overlay ==> v < s'.nextId)
  }

  lemma CommittedEvents(s: State, h: Id, r: Recon)
    requires IndexSound(r) && s.nextId <= r.nextId && forall v :: v in r.vms || v in r.overlay ==> v < r.nextId
    ensures EventsAndKeys(s, Committed(s, h, r))
  {
    RemovalEventsArePlain(Ledger(s.events, r.nextId), r, s.tasks, h, s.now, r.nextId);
  }

  lemma SnapshotEvents(s: State, h: Id, items: seq<Item>)
    requires h in s.hosts && forall v :: v in s.vms || v in s.overlay ==> v < s.nextId
    ensures EventsAndKeys(s, SnapshotSpec(s, h, items))
  {
    var r := Inventory.Finished(s, h, items);
    WalkOverlayFresh(Start(s, h), items, Reporting(s, h));
    if r.raised {
      RolledBackEvents(s, r);
      assert SnapshotSpec(s, h, items) == s.(overlay := r.overlay, nextId := r.nextId);
    } else {
      CommittedEvents(s, h, r);
      assert SnapshotSpec(s, h, items) == Committed(s, h, r);
    }
  }

  lemma RolledBackEvents(s: State, r: Recon)
    requires s.nextId <= r.nextId && forall v :: v in r.overlay || v in s.vms ==> v < r.nextId
    ensures EventsAndKeys(s, s.(overlay := r.overlay, nextId := r.nextId))
  {
  }

  lemma SnapshotIds(s: State, h: Id, items: seq<Item>)
    requires Sound(s) && h in s.hosts
    ensures IdsGrow(s, SnapshotSpec(s, h, items)) && OnlyPlain(s.events, SnapshotSpec(s, h, items).events)
  {
    assert Holds(Ids, s);
    SnapshotEvents(s, h, items);
    SnapshotSurroundings(s, h, items);
  }

  lemma SnapshotSound(s: State, h: Id, items: seq<Item>)
    requires Sound(s)
    ensures Sound(SnapshotSpec(s, h, items))
  {
    if h in s.hosts {
      var s' := SnapshotSpec(s, h, items);
      SnapshotIds(s, h, items);
      SnapshotSurroundings(s, h, items);
      SnapshotRows(s, h, items);
      FitsKeepTags(s, s');
      IdsCarryOver(s, s');
      PlacesCarryOver(s, s');
      LabelsCarryOver(s, s');
      PlainEventsKeepLedger(s, s');
      Assemble(s');
    }
  }
}
