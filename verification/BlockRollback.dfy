/** A response whose VM data is rolled back: what its overlay writes leave. */
module BlockRollback {
  import opened Wrappers
  import opened Model
  import opened VmRow
  import opened CacheOps
  import opened InventoryLaws
  import opened Responses
  import opened Invariants
  import opened RowSteps
  import opened Rollback
  import opened StatusLaws
  import Agreement
  import ResponseSteps

  // The block stops where the entry raises.
  lemma StatusStops(b: Block, items: seq<Item>, from: Sender)
    requires !b.raised && !WellFormed(items)
    ensures var w := StatusItems(b, items[..FirstMalformed(items)], from);
      !w.b.raised && StatusItems(b, items, from).b == w.b.(raised := true)
  {
    var m := FirstMalformed(items);
    StatusRaisesExactly(b, items[..m], from);
    StatusStep(b, items, m, from);
    StatusAfterRaise(b, items, m + 1, from);
  }

  // ---- the response as a whole -------------------------------------------------------------

  /** The entries taken in before the block fails: none when the GUID is taken. */
  function Taken(s: State, r: Response): seq<Item>
    requires r.task in s.tasks
  {
    if MakesVm(s.tasks[r.task].kind) && GuidTaken(s, r) then [] else r.items[..FirstMalformed(r.items)]
  }

  lemma RolledBackBlock(s: State, h: Id, r: Response)
    requires Known(s, h, r) && RollsBack(s, r) && !(MakesVm(s.tasks[r.task].kind) && GuidTaken(s, r))
    ensures Worked(s, h, r) == StatusItems(BaseBlock(s, h, r), Taken(s, r), SenderOf(s, h)).b.(raised := true)
  {
    StatusStops(BaseBlock(s, h, r), r.items, SenderOf(s, h));
    var t := Responses.Finished(s.tasks[r.task], r, s.now);
    if MakesVm(t.kind) {
      assert Worked(s, h, r) == PlaceholderBlock(BlockOf(s), r, t, SenderOf(s, h));
    } else {
      assert Worked(s, h, r) == RefreshBlock(BlockOf(s), r, SenderOf(s, h));
    }
  }

  /** Told what it is told, every row would have the state it has. */
  ghost predicate NothingNew(s: State, h: Id, r: Response)
    requires r.task in s.tasks
  {
    forall v :: v in s.vms ==> RowTold(Base(s, r)[v], Taken(s, r), SenderOf(s, h)).state == s.vms[v].state
  }

  // Rows as they were, overlay as after the entries: they agree iff nothing new was told.
  lemma ToldOverlay(vms: map<Id, Vm>, b: Block, w: Sweepings, items: seq<Item>, from: Sender, changed: Id)
    requires AllTold(b, w, items, from) && Agree(w.b.vms, w.b.overlay) && b.vms.Keys == vms.Keys
    requires forall v :: v in vms && v != changed ==> b.vms[v] == vms[v]
    requires changed in vms && b.vms[changed] != vms[changed] ==> changed in b.overlay
    ensures Agree(vms, w.b.overlay) <==> forall v :: v in vms ==> RowTold(b.vms[v], items, from).state == vms[v].state
  {
    forall v | v in vms ensures RowIsTold(b, w.b, items, from, v) {}
    if Agree(vms, w.b.overlay) {
      forall v | v in vms ensures RowTold(b.vms[v], items, from).state == vms[v].state {
        if v in w.b.overlay {
          assert w.b.overlay[v].state == w.b.vms[v].state;
        } else {
          UntoldRow(b.vms[v], items, from);
        }
      }
    }
  }

  lemma BaseAgrees(s: State, h: Id, r: Response)
    requires OverlayAgrees(s) && r.task in s.tasks
    ensures Agree(BaseBlock(s, h, r).vms, BaseBlock(s, h, r).overlay)
  {
  }

  lemma ToldAgreement(vms: map<Id, Vm>, b: Block, items: seq<Item>, from: Sender, changed: Id)
    requires Findable(b.vms, from) && Agree(b.vms, b.overlay) && WellFormed(items) && !b.raised && b.vms.Keys == vms.Keys
    requires forall v :: v in vms && v != changed ==> b.vms[v] == vms[v]
    requires changed in vms && b.vms[changed] != vms[changed] ==> changed in b.overlay
    ensures Agree(vms, StatusItems(b, items, from).b.overlay)
      <==> forall v :: v in vms ==> RowTold(b.vms[v], items, from).state == vms[v].state
  {
    StatusTells(b, items, from);
    Agreement.StatusItemsAgree(b, items, from);
    ToldOverlay(vms, b, StatusItems(b, items, from), items, from, changed);
  }

  lemma MalformedBlockExactly(s: State, h: Id, r: Response)
    requires Sound(s) && OverlayAgrees(s) && Known(s, h, r) && h in s.hosts
    requires RollsBack(s, r) && !(MakesVm(s.tasks[r.task].kind) && GuidTaken(s, r))
    ensures Agree(s.vms, Worked(s, h, r).overlay) <==> NothingNew(s, h, r)
  {
    BaseIsFindable(s, h, r);
    BaseAgrees(s, h, r);
    RolledBackBlock(s, h, r);
    ToldAgreement(s.vms, BaseBlock(s, h, r), Taken(s, r), SenderOf(s, h), s.tasks[r.task].targetId);
  }

  lemma TakenGuidExactly(s: State, h: Id, r: Response)
    requires OverlayAgrees(s) && Known(s, h, r) && RollsBack(s, r) && MakesVm(s.tasks[r.task].kind) && GuidTaken(s, r)
    ensures Agree(s.vms, Worked(s, h, r).overlay) <==> NothingNew(s, h, r)
  {
    var t, v := Responses.Finished(s.tasks[r.task], r, s.now), s.tasks[r.task].targetId;
    Agreement.ClashingBlock(BlockOf(s), r, t, SenderOf(s, h));
    var overlay := Worked(s, h, r).overlay;
    assert v in overlay && overlay[v].state == Stamped(s.vms[v], r).state;
    forall u | u in s.vms ensures RowTold(Base(s, r)[u], [], SenderOf(s, h)) == Base(s, r)[u] {}
  }

  /** A response whose VM data is rolled back leaves the overlay agreeing with the rows exactly
      when what it said before it failed was what the rows say. */
  lemma RolledBackResponseAgreesExactly(s: State, h: Id, r: Response)
    requires Sound(s) && OverlayAgrees(s) && Known(s, h, r) && RollsBack(s, r)
    ensures OverlayAgrees(ResponseSpec(s, h, r)) <==> NothingNew(s, h, r)
  {
    ResponseSteps.SenderExists(s, h, r);
    RollsBackExactly(s, h, r);
    EndedFields(s, h, r);
    if MakesVm(s.tasks[r.task].kind) && GuidTaken(s, r) {
      TakenGuidExactly(s, h, r);
    } else {
      MalformedBlockExactly(s, h, r);
    }
  }
}
