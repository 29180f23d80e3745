/** What the VM objects attached to a response do to the rows. */
module StatusLaws {
  import opened Wrappers
  import opened Model
  import opened VmRow
  import opened CacheOps
  import opened InventoryLaws
  import opened Responses
  import opened Invariants
  import opened RowSteps
  import opened RowContents
  import opened Telling
  import opened Rollback
  import ResponseSteps

  function ByStatus(from: Sender): Teller {
    Teller(from.host, from.cluster, true, from.now)
  }

  /** Does one of the entries concern this row? Entries only reach the sender's rows. */
  predicate Touches(row: Vm, items: seq<Item>, from: Sender) {
    row.host == from.host && row.guid.Some? && Names(items, row.guid.value)
  }

  function RowTold(row: Vm, items: seq<Item>, from: Sender): Vm {
    if row.host == from.host && row.guid.Some? then Told(row, items, row.guid.value, ByStatus(from)) else row
  }

  // Rows with ids below the table's size, each GUID once on the sender.
  ghost predicate Findable(vms: map<Id, Vm>, from: Sender) {
    && Synced(vms, from) && (forall v :: v in vms ==> v < from.n)
    && forall a, b :: a in vms && b in vms && vms[a].host == from.host && vms[b].host == from.host && Alike(vms[a], vms[b]) ==> a == b
  }

  // One row and its overlay entry after the entries.
  ghost predicate RowIsTold(b: Block, w: Block, items: seq<Item>, from: Sender, v: Id)
    requires v in b.vms
  {
    && v in w.vms && w.vms[v] == RowTold(b.vms[v], items, from)
    && (if Touches(b.vms[v], items, from)
        then v in w.overlay && w.overlay[v] == Cached(w.vms[v].state, from.now + from.cfg.stateTtl * SECOND)
        else (v in w.overlay <==> v in b.overlay) && (v in b.overlay ==> w.overlay[v] == b.overlay[v]))
  }

  ghost predicate AllTold(b: Block, w: Sweepings, items: seq<Item>, from: Sender) {
    && w.b.vms.Keys == b.vms.Keys && (forall v :: v in b.vms ==> RowIsTold(b, w.b, items, from, v))
    && (w.updated <==> exists v :: v in b.vms && Touches(b.vms[v], items, from))
  }

  lemma FindsRow(vms: map<Id, Vm>, from: Sender, g: Guid, v: Id)
    requires Findable(vms, from) && v in vms && vms[v].host == from.host && vms[v].guid == Some(g)
    ensures FindRow(vms, g, from.host, from.n) == Some(v)
  {
    var found := FindRow(vms, g, from.host, from.n);
    assert HasGuid(vms[v], g);
    assert found.Some? && Alike(vms[found.value], vms[v]);
  }

  lemma RowToldStays(row: Vm, items: seq<Item>, from: Sender)
    requires row.host == from.host ==> row.cluster == from.cluster
    ensures SamePlace(row, RowTold(row, items, from))
  {
    if row.host == from.host && row.guid.Some? { ToldKeepsIdentity(row, items, row.guid.value, ByStatus(from)); }
  }

  lemma FindableKept(b: Block, w: Sweepings, items: seq<Item>, from: Sender)
    requires Findable(b.vms, from) && AllTold(b, w, items, from)
    ensures Findable(w.b.vms, from)
  {
    forall v | v in w.b.vms ensures SamePlace(b.vms[v], w.b.vms[v]) {
      assert RowIsTold(b, w.b, items, from, v);
      RowToldStays(b.vms[v], items, from);
    }
    forall x, y | x in w.b.vms && y in w.b.vms && w.b.vms[x].host == from.host && w.b.vms[y].host == from.host
                  && Alike(w.b.vms[x], w.b.vms[y]) ensures x == y {
      assert Alike(b.vms[x], b.vms[y]);
    }
  }

  // One entry: the row it names, and no other.
  lemma OneEntry(w: Sweepings, it: Item, from: Sender, v: Id)
    requires Findable(w.b.vms, from) && v in w.b.vms && it.Item? && !w.b.raised
    ensures var x, row := StatusItem(w, it, from).b, w.b.vms[v];
      if row.host == from.host && row.guid.Some? && ListedBy(it) == row.guid
      then v in x.vms && x.vms[v] == WriteVmRowSpec(row, it.raw, from.host, from.cluster, true, from.now)
           && v in x.overlay && x.overlay[v] == Cached(x.vms[v].state, from.now + from.cfg.stateTtl * SECOND)
      else v in x.vms && x.vms[v] == row
           && (v in x.overlay <==> v in w.b.overlay) && (v in w.b.overlay ==> x.overlay[v] == w.b.overlay[v])
  {
    var g, row := GuidOf(it.raw), w.b.vms[v];
    if g.Some? {
      if row.host == from.host && row.guid == g {
        FindsRow(w.b.vms, from, g.value, v);
      } else {
        assert FindRow(w.b.vms, g.value, from.host, from.n) != Some(v);
      }
    }
  }

  lemma OneEntryElsewhere(w: Sweepings, it: Item, from: Sender)
    requires it.Item? && !w.b.raised && Findable(w.b.vms, from)
    ensures var x := StatusItem(w, it, from);
      && x.b.vms.Keys == w.b.vms.Keys
      && (x.updated <==> w.updated || exists v :: v in w.b.vms && Touches(w.b.vms[v], [it], from))
  {
    if GuidOf(it.raw).Some? {
      var g := GuidOf(it.raw).value;
      var id := FindRow(w.b.vms, g, from.host, from.n);
      assert [it][0] == it;
      if id.Some? { assert Touches(w.b.vms[id.value], [it], from); }
      if v :| v in w.b.vms && Touches(w.b.vms[v], [it], from) { FindsRow(w.b.vms, from, g, v); }
    }
  }

  lemma NamesOneMore(items: seq<Item>, last: Item, g: Guid)
    ensures Names(items + [last], g) <==> Names(items, g) || ListedBy(last) == Some(g)
  {
    var all := items + [last];
    if Names(items, g) {
      var i :| 0 <= i < |items| && ListedBy(items[i]) == Some(g);
      assert all[i] == items[i];
    }
    if ListedBy(last) == Some(g) { assert all[|items|] == last; }
  }

  lemma RowToldOneMore(b: Block, w: Sweepings, items: seq<Item>, last: Item, from: Sender, v: Id)
    requires Findable(b.vms, from) && Findable(w.b.vms, from) && v in b.vms && RowIsTold(b, w.b, items, from, v)
    requires last.Item? && !w.b.raised
    ensures RowIsTold(b, StatusItem(w, last, from).b, items + [last], from, v)
  {
    var row := b.vms[v];
    OneEntry(w, last, from, v);
    RowToldStays(row, items, from);
    if row.guid.Some? {
      ToldStep(row, items, last, row.guid.value, ByStatus(from));
      NamesOneMore(items, last, row.guid.value);
    }
  }

  lemma TouchedOneMore(b: Block, w: Sweepings, items: seq<Item>, last: Item, from: Sender)
    requires Findable(b.vms, from) && AllTold(b, w, items, from)
    ensures (exists v :: v in b.vms && Touches(b.vms[v], items + [last], from))
      <==> (exists v :: v in b.vms && Touches(b.vms[v], items, from))
           || (exists v :: v in w.b.vms && Touches(w.b.vms[v], [last], from))
  {
    forall v | v in b.vms
      ensures Touches(b.vms[v], items + [last], from) <==> Touches(b.vms[v], items, from) || Touches(w.b.vms[v], [last], from)
    {
      assert RowIsTold(b, w.b, items, from, v);
      RowToldStays(b.vms[v], items, from);
      if b.vms[v].guid.Some? {
        NamesOneMore(items, last, b.vms[v].guid.value);
        NamesOneMore([], last, b.vms[v].guid.value);
        assert [] + [last] == [last];
      }
    }
  }

  /** Every row is taken through the entries about it, in order, and no other row is touched. */
  lemma {:induction false} StatusTells(b: Block, items: seq<Item>, from: Sender)
    requires Findable(b.vms, from) && WellFormed(items) && !b.raised
    ensures !StatusItems(b, items, from).b.raised && AllTold(b, StatusItems(b, items, from), items, from)
  {
    StatusRaisesExactly(b, items, from);
    if items == [] {
      forall v | v in b.vms ensures RowIsTold(b, b, items, from, v) {}
    } else {
      var init, last := items[..|items| - 1], items[|items| - 1];
      assert items == init + [last];
      StatusTells(b, init, from);
      var w := StatusItems(b, init, from);
      FindableKept(b, w, init, from);
      OneEntryElsewhere(w, last, from);
      TouchedOneMore(b, w, init, last, from);
      forall v | v in b.vms ensures RowIsTold(b, StatusItem(w, last, from).b, items, from, v) {
        assert RowIsTold(b, w.b, init, from, v);
        RowToldOneMore(b, w, init, last, from, v);
      }
    }
  }

  // ---- a response as a whole ----------------------------------------------------------------

  /** The rows the entries are applied to: the placeholder of a create or clone has been given
      its GUID and its state by then. */
  function Base(s: State, r: Response): map<Id, Vm>
    requires r.task in s.tasks
  {
    var t := s.tasks[r.task];
    if MakesVm(t.kind) && t.targetId in s.vms then s.vms[t.targetId := Stamped(s.vms[t.targetId], r)] else s.vms
  }

  function BaseBlock(s: State, h: Id, r: Response): Block
    requires r.task in s.tasks
  {
    var t := s.tasks[r.task];
    Block(Base(s, r),
          if MakesVm(t.kind) && t.targetId in s.vms
          then Overlaid(s.overlay, t.targetId, Stamped(s.vms[t.targetId], r).state, s.cfg, s.now) else s.overlay,
          s.tombs, false)
  }

  lemma BaseIsFindable(s: State, h: Id, r: Response)
    requires Sound(s) && Known(s, h, r) && h in s.hosts && (MakesVm(s.tasks[r.task].kind) ==> !GuidTaken(s, r))
    ensures Findable(Base(s, r), SenderOf(s, h))
  {
    assert Invariants.Holds(Ids, s) && Invariants.Holds(Places, s) && Invariants.Holds(Guids, s);
    var t, base := s.tasks[r.task], Base(s, r);
    if base != s.vms { StampedIsUnique(s.vms, r, t); }
    forall a, b | a in base && b in base && base[a].host == h && base[b].host == h && Alike(base[a], base[b]) ensures a == b {
      assert a != b ==> !SameScope(base[a], base[b]);
    }
  }

  /** Does an entry of the response concern any row of the sender? */
  ghost predicate Updates(s: State, h: Id, r: Response)
    requires r.task in s.tasks
  {
    exists v :: v in s.vms && Touches(Base(s, r)[v], r.items, SenderOf(s, h))
  }

  /** The bare hint counts only when no entry reached a row. */
  predicate Hints(r: Response) {
    r.vmId != "" && r.vmState != ""
  }

  // What becomes of one row.
  ghost predicate RowRefreshed(s: State, h: Id, r: Response, vms: map<Id, Vm>, v: Id)
    requires r.task in s.tasks && v in s.vms
  {
    var base := Base(s, r)[v];
    && v in vms
    && vms[v] == if !MakesVm(s.tasks[r.task].kind) && !Updates(s, h, r) && Hints(r) && base.host == h && base.guid == Some(r.vmId)
                 then base.(state := r.vmState)
                 else RowTold(base, r.items, SenderOf(s, h))
  }

  lemma PlaceholderRefreshed(s: State, h: Id, r: Response, v: Id)
    requires Sound(s) && Known(s, h, r) && h in s.hosts && r.status.SaysSucceeded? && !RollsBack(s, r)
    requires MakesVm(s.tasks[r.task].kind) && s.tasks[r.task].targetId in s.vms && v in s.vms
    ensures RowRefreshed(s, h, r, Worked(s, h, r).vms, v)
  {
    BaseIsFindable(s, h, r);
    StatusTells(BaseBlock(s, h, r), r.items, SenderOf(s, h));
    assert Worked(s, h, r) == PlaceholderBlock(BlockOf(s), r, Responses.Finished(s.tasks[r.task], r, s.now), SenderOf(s, h));
    assert RowIsTold(BaseBlock(s, h, r), Worked(s, h, r), r.items, SenderOf(s, h), v);
  }

  lemma HintedRow(s: State, h: Id, r: Response, v: Id)
    requires Findable(s.vms, SenderOf(s, h)) && v in s.vms
    ensures var id := FindRow(s.vms, r.vmId, h, s.nextId);
      (s.vms[v].host == h && s.vms[v].guid == Some(r.vmId)) <==> id == Some(v)
  {
    if s.vms[v].host == h && s.vms[v].guid == Some(r.vmId) { FindsRow(s.vms, SenderOf(s, h), r.vmId, v); }
  }

  lemma UntoldRow(row: Vm, items: seq<Item>, from: Sender)
    requires !Touches(row, items, from)
    ensures RowTold(row, items, from) == row
  {
    if row.host == from.host && row.guid.Some? { UnnamedStays(row, items, row.guid.value, ByStatus(from)); }
  }

  lemma OtherRefreshed(s: State, h: Id, r: Response, v: Id)
    requires Sound(s) && Known(s, h, r) && h in s.hosts && r.status.SaysSucceeded? && !RollsBack(s, r)
    requires !MakesVm(s.tasks[r.task].kind) && !s.tasks[r.task].kind.VmDelete? && v in s.vms
    ensures RowRefreshed(s, h, r, Worked(s, h, r).vms, v)
  {
    var b, from := BlockOf(s), SenderOf(s, h);
    BaseIsFindable(s, h, r);
    StatusTells(b, r.items, from);
    var w := StatusItems(b, r.items, from);
    assert Worked(s, h, r) == RefreshBlock(b, r, from);
    assert RowIsTold(b, w.b, r.items, from, v);
    if !w.updated && Hints(r) {
      UntouchedTable(s, h, r, w);
      HintedRow(s, h, r, v);
    }
  }

  // When no entry reached a row, the rows are as they were.
  lemma UntouchedTable(s: State, h: Id, r: Response, w: Sweepings)
    requires AllTold(BlockOf(s), w, r.items, SenderOf(s, h)) && !w.updated
    ensures w.b.vms == s.vms
  {
    forall v | v in s.vms ensures w.b.vms[v] == s.vms[v] {
      assert RowIsTold(BlockOf(s), w.b, r.items, SenderOf(s, h), v);
      UntoldRow(s.vms[v], r.items, SenderOf(s, h));
    }
  }

  /** A successful response that is taken in, of any kind but a delete: each row of the sender is
      taken through the entries about it; when no entry reaches a row, the hint sets the state
      of the row it names; everything else stays. */
  lemma ResponseReachesRows(s: State, h: Id, r: Response, v: Id)
    requires Sound(s) && Known(s, h, r) && r.status.SaysSucceeded? && !s.tasks[r.task].kind.VmDelete? && !RollsBack(s, r)
    requires v in s.vms && (MakesVm(s.tasks[r.task].kind) ==> s.tasks[r.task].targetId in s.vms)
    ensures RowRefreshed(s, h, r, ResponseSpec(s, h, r).vms, v)
  {
    ResponseSteps.SenderExists(s, h, r);
    RollsBackExactly(s, h, r);
    EndedFields(s, h, r);
    if MakesVm(s.tasks[r.task].kind) { PlaceholderRefreshed(s, h, r, v); } else { OtherRefreshed(s, h, r, v); }
  }

  /** So a row holds what the last entry about it says, on top of what the earlier ones left. */
  lemma RowIsAsLastReported(s: State, h: Id, r: Response, v: Id, i: nat) returns (before: Vm)
    requires Sound(s) && Known(s, h, r) && r.status.SaysSucceeded? && !s.tasks[r.task].kind.VmDelete? && !RollsBack(s, r)
    requires v in s.vms && (MakesVm(s.tasks[r.task].kind) ==> s.tasks[r.task].targetId in s.vms)
    requires Base(s, r)[v].host == h && Base(s, r)[v].guid.Some? && LastFor(r.items, |r.items|, i, Base(s, r)[v].guid.value)
    ensures h in s.hosts && v in ResponseSpec(s, h, r).vms
    ensures RowContents.Holds(before, ResponseSpec(s, h, r).vms[v], r.items[i].raw, h, s.hosts[h].cluster, true, s.now)
    ensures !Names(r.items[..i], Base(s, r)[v].guid.value) ==> before == Base(s, r)[v]
  {
    ResponseSteps.SenderExists(s, h, r);
    ResponseReachesRows(s, h, r, v);
    var base, from := Base(s, r)[v], SenderOf(s, h);
    var g := base.guid.value;
    assert Names(r.items, g) && Touches(base, r.items, from);
    LastEntryHolds(base, r.items, i, g, ByStatus(from));
    before := Told(base, r.items[..i], g, ByStatus(from));
    if !Names(r.items[..i], g) { UnnamedStays(base, r.items[..i], g, ByStatus(from)); }
  }

  /** What a create or clone is known by from then on: the GUID and state reported, "Off" when
      no state is. */
  lemma PlaceholderIsStamped(s: State, h: Id, r: Response, v: Id)
    requires Sound(s) && Known(s, h, r) && r.status.SaysSucceeded? && MakesVm(s.tasks[r.task].kind) && !RollsBack(s, r)
    requires v == s.tasks[r.task].targetId && v in s.vms && (r.vmId != "" ==> !Names(r.items, r.vmId))
    requires s.vms[v].guid.None?
    ensures v in ResponseSpec(s, h, r).vms
    ensures ResponseSpec(s, h, r).vms[v]
      == s.vms[v].(guid := if r.vmId == "" then None else Some(r.vmId), state := if r.vmState == "" then "Off" else r.vmState)
  {
    ResponseReachesRows(s, h, r, v);
    UntoldRow(Base(s, r)[v], r.items, SenderOf(s, h));
  }
}
