/** What makes a transaction or a savepoint roll its rows back, and what the cache, which is not
    rolled back, then still says. */
module Rollback {
  import opened Wrappers
  import opened Model
  import opened VmRow
  import opened CacheOps
  import opened Inventory
  import opened InventoryLaws
  import opened Responses
  import opened Invariants
  import opened RowContents
  import opened Telling
  import opened RowSteps
  import ResponseSteps
  import SnapshotSteps

  /** The GUID this response brings for the placeholder is taken in its scope. */
  predicate GuidTaken(s: State, r: Response)
    requires r.task in s.tasks
  {
    var v := s.tasks[r.task].targetId;
    v in s.vms && Clashes(s.vms[v := Stamped(s.vms[v], r)], v)
  }

  /** Will taking in the response's VM data fail? */
  predicate RollsBack(s: State, r: Response)
    requires r.task in s.tasks
  {
    var t := s.tasks[r.task];
    && r.status.SaysSucceeded? && !t.kind.VmDelete?
    && if MakesVm(t.kind) then t.targetId in s.vms && (GuidTaken(s, r) || !WellFormed(r.items))
       else !WellFormed(r.items)
  }

  lemma {:induction false} StatusRaisesExactly(b: Block, items: seq<Item>, from: Sender)
    requires !b.raised
    ensures StatusItems(b, items, from).b.raised <==> !WellFormed(items)
  {
    if items != [] {
      var init, last := items[..|items| - 1], items[|items| - 1];
      StatusRaisesExactly(b, init, from);
      assert WellFormed(items) <==> WellFormed(init) && last.Item? by {
        assert items == init + [last];
      }
    }
  }

  lemma PlaceholderRaisesExactly(b: Block, r: Response, t: Task, from: Sender)
    requires !b.raised && MakesVm(t.kind)
    ensures PlaceholderBlock(b, r, t, from).raised
      <==> t.status.Succeeded? && t.targetId in b.vms
           && (Clashes(b.vms[t.targetId := Stamped(b.vms[t.targetId], r)], t.targetId) || !WellFormed(r.items))
  {
    if t.targetId in b.vms && t.status.Succeeded? {
      var row := Stamped(b.vms[t.targetId], r);
      StatusRaisesExactly(b.(vms := b.vms[t.targetId := row],
                             overlay := Overlaid(b.overlay, t.targetId, row.state, from.cfg, from.now)), r.items, from);
    }
  }

  lemma BlockRaisesExactly(b: Block, r: Response, t: Task, from: Sender)
    requires !b.raised && !MakesVm(t.kind)
    ensures VmBlock(b, r, t, from).raised <==> t.status.Succeeded? && !t.kind.VmDelete? && !WellFormed(r.items)
  {
    StatusRaisesExactly(b, r.items, from);
  }

  /** The VM block of a response is rolled back exactly when the GUID is taken or an entry is
      malformed, for the responses that take in VM data at all. */
  lemma RollsBackExactly(s: State, h: Id, r: Response)
    requires Known(s, h, r)
    ensures Worked(s, h, r).raised <==> RollsBack(s, r)
  {
    var t := Responses.Finished(s.tasks[r.task], r, s.now);
    if MakesVm(t.kind) {
      PlaceholderRaisesExactly(BlockOf(s), r, t, SenderOf(s, h));
    } else {
      BlockRaisesExactly(BlockOf(s), r, t, SenderOf(s, h));
    }
  }

  // ---- entries before the first malformed one ---------------------------------------------

  function FirstMalformed(items: seq<Item>): (m: nat)
    ensures m <= |items| && WellFormed(items[..m]) && (m < |items| ==> items[m].Malformed?)
    ensures m == |items| <==> WellFormed(items)
  {
    if items == [] || items[0].Malformed? then 0
    else
      var m := 1 + FirstMalformed(items[1..]);
      assert forall i :: 1 <= i < |items| ==> items[i] == items[1..][i - 1];
      m
  }

  // ---- a snapshot with a malformed entry -----------------------------------------------------

  // The state a full entry reports, which never depends on the row.
  function StateSaid(raw: Raw): string {
    WriteState("", raw, false)
  }

  ghost predicate Overlays(r: Recon) {
    forall g :: g in r.seen ==> g in r.existing && r.existing[g] in r.overlay
  }

  lemma StepOverlays(r: Recon, it: Item, rep: Reporter)
    requires IndexSound(r) && Overlays(r)
    ensures Overlays(StepItem(r, it, rep))
  {
    if !r.raised && it.Item? && GuidOf(it.raw).Some? && !Stale(r, GuidOf(it.raw).value, rep) {
      var g := GuidOf(it.raw).value;
      var r' := Upsert(r, g, it.raw, rep);
      assert r'.existing[g] in r'.overlay && r.overlay.Keys <= r'.overlay.Keys;
      assert forall x :: x in r'.seen && x != g ==> x in r.seen && r'.existing[x] == r.existing[x];
    }
  }

  lemma {:induction false} WalkOverlays(r: Recon, items: seq<Item>, rep: Reporter)
    requires IndexSound(r) && Overlays(r)
    ensures Overlays(Walk(r, items, rep))
  {
    if items != [] {
      WalkOverlays(r, items[..|items| - 1], rep);
      StepOverlays(Walk(r, items[..|items| - 1], rep), items[|items| - 1], rep);
    }
  }

  // The walk stops where the entry raises.
  lemma WalkStops(r: Recon, items: seq<Item>, rep: Reporter)
    requires IndexSound(r) && !r.raised && r.seen == {} && !WellFormed(items)
    ensures var w := Walk(r, items[..FirstMalformed(items)], rep);
      !w.raised && Walk(r, items, rep) == w.(raised := true)
  {
    var m := FirstMalformed(items);
    WalkSees(r, items[..m], rep);
    WalkStep(r, items, m, rep);
    WalkAfterRaise(r, items, m + 1, rep);
  }

  // What the walk over the good entries has noted about a listed GUID.
  lemma PrefixSays(s: State, h: Id, prefix: seq<Item>, g: Guid, i: nat)
    requires Readable(s, h) && WellFormed(prefix) && g in KnownGuids(s, h) && LastFor(prefix, |prefix|, i, g)
    ensures var w := Walk(Start(s, h), prefix, Reporting(s, h));
      && Walked(s, w, Reporting(s, h), ScopeHosts(s.hosts, h))
      && g in w.existing && w.existing[g] in w.overlay && w.vms[w.existing[g]].state == StateSaid(prefix[i].raw)
  {
    var rep, scope, r := Reporting(s, h), ScopeHosts(s.hosts, h), Start(s, h);
    StartWalks(s, h);
    WalkWalks(s, r, prefix, rep, scope);
    WalkSees(r, prefix, rep);
    WalkOverlays(r, prefix, rep);
    assert g in Listed(prefix);
    WalkCarries(s, r, prefix, rep, scope, g);
    LastStateSaid(FirstRow(r, g, rep), prefix, i, g, ByReport(rep));
  }

  lemma LastStateSaid(row: Vm, items: seq<Item>, i: nat, g: Guid, who: Teller)
    requires LastFor(items, |items|, i, g) && !who.partial
    ensures items[i].Item? && Told(row, items, g, who).state == StateSaid(items[i].raw)
  {
    LastEntryHolds(row, items, i, g, who);
  }

  // The row of an old VM is the one the index has for its GUID.
  lemma RowOfGuid(s: State, h: Id, w: Recon, v: Id)
    requires Readable(s, h) && Walked(s, w, Reporting(s, h), ScopeHosts(s.hosts, h)) && InScope(s, h, v)
    ensures s.vms[v].guid.value in w.existing && w.existing[s.vms[v].guid.value] == v
  {
    assert Carried(s.vms[v], w.vms[v], Reporting(s, h), ScopeHosts(s.hosts, h), w.seen);
  }

  lemma PrefixState(s: State, h: Id, items: seq<Item>, m: nat, v: Id, i: nat)
    requires Readable(s, h) && m <= |items| && WellFormed(items[..m]) && InScope(s, h, v)
    requires LastFor(items, m, i, s.vms[v].guid.value)
    ensures items[i].Item?
    ensures var w := Walk(Start(s, h), items[..m], Reporting(s, h));
      v in w.vms && v in w.overlay && w.vms[v].state == StateSaid(items[i].raw)
  {
    var g, prefix := s.vms[v].guid.value, items[..m];
    assert g in KnownGuids(s, h);
    assert prefix[i] == items[i];
    assert forall j :: i < j < m ==> prefix[j] == items[j];
    PrefixSays(s, h, prefix, g, i);
    RowOfGuid(s, h, Walk(Start(s, h), prefix, Reporting(s, h)), v);
  }

  lemma UnlistedRowStays(s: State, h: Id, items: seq<Item>, m: nat, v: Id)
    requires Readable(s, h) && m <= |items| && WellFormed(items[..m]) && v in s.vms
    requires !(InScope(s, h, v) && s.vms[v].guid.value in Listed(items[..m]))
    ensures var w := Walk(Start(s, h), items[..m], Reporting(s, h)); v in w.vms && w.vms[v] == s.vms[v]
  {
    StartWalks(s, h);
    WalkWalks(s, Start(s, h), items[..m], Reporting(s, h), ScopeHosts(s.hosts, h));
    WalkSees(Start(s, h), items[..m], Reporting(s, h));
    assert Carried(s.vms[v], Walk(Start(s, h), items[..m], Reporting(s, h)).vms[v], Reporting(s, h),
                   ScopeHosts(s.hosts, h), Walk(Start(s, h), items[..m], Reporting(s, h)).seen);
  }

  /** The last good entry about the row's VM says the state the row has. */
  ghost predicate EntriesConfirm(s: State, h: Id, items: seq<Item>, m: nat)
    requires h in s.hosts && m <= |items|
  {
    forall v: Id, i: nat :: InScope(s, h, v) && LastFor(items, m, i, s.vms[v].guid.value) ==>
      items[i].Item? && StateSaid(items[i].raw) == s.vms[v].state
  }

  lemma RolledBackOverlay(s: State, h: Id, items: seq<Item>, m: nat)
    requires Readable(s, h) && m <= |items| && WellFormed(items[..m]) && OverlayAgrees(s)
    ensures Agree(s.vms, Walk(Start(s, h), items[..m], Reporting(s, h)).overlay) <==> EntriesConfirm(s, h, items, m)
  {
    var w := Walk(Start(s, h), items[..m], Reporting(s, h));
    WalkAgrees(Start(s, h), items[..m], Reporting(s, h));
    if EntriesConfirm(s, h, items, m) {
      forall v | v in s.vms && v in w.overlay ensures w.overlay[v].state == s.vms[v].state {
        if InScope(s, h, v) && s.vms[v].guid.value in Listed(items[..m]) {
          var i := LastExists(items, m, s.vms[v].guid.value);
          PrefixState(s, h, items, m, v, i);
        } else {
          UnlistedRowStays(s, h, items, m, v);
        }
      }
    }
    if Agree(s.vms, w.overlay) {
      forall v: Id, i: nat | InScope(s, h, v) && LastFor(items, m, i, s.vms[v].guid.value)
        ensures items[i].Item? && StateSaid(items[i].raw) == s.vms[v].state
      {
        PrefixState(s, h, items, m, v, i);
      }
    }
  }

  /** A snapshot that is rolled back leaves the overlay agreeing with the rows exactly when the
      entries before the malformed one only repeated the states the rows have. */
  lemma MalformedSnapshotAgreesExactly(s: State, h: Id, items: seq<Item>)
    requires Sound(s) && h in s.hosts && OverlayAgrees(s) && !WellFormed(items)
    ensures OverlayAgrees(SnapshotSpec(s, h, items)) <==> EntriesConfirm(s, h, items, FirstMalformed(items))
  {
    SnapshotSteps.SoundIsReadable(s, h);
    WalkStops(Start(s, h), items, Reporting(s, h));
    RolledBackOverlay(s, h, items, FirstMalformed(items));
    MalformedOverlay(s, h, items);
  }

  lemma MalformedOverlay(s: State, h: Id, items: seq<Item>)
    requires Readable(s, h) && !WellFormed(items)
    ensures var s' := SnapshotSpec(s, h, items);
      s'.vms == s.vms && s'.overlay == Inventory.Finished(s, h, items).overlay
  {
    FinishedWalks(s, h, items);
  }
}
