/** The state overlay in the cache against the rows, and what that means for listing. */
module Agreement {
  import opened Wrappers
  import opened Model
  import opened VmRow
  import opened CacheOps
  import opened Inventory
  import opened Responses
  import opened Vms
  import opened HostActions
  import opened Worker
  import opened TagLaws
  import opened Invariants
  import opened InventoryLaws
  import opened Engine
  import opened PlaceShapes
  import opened Soundness
  import opened Rollback
  import ActionLaws
  import Listing
  import Rbac
  import Locks
  import ResponseSteps
  import SnapshotSteps
  import TagSteps

  /** Nothing is rolled back in this step after it has written to the cache. */
  predicate Commits(s: State, a: Action) {
    match a
    case ActOnVm(_, kind, _, published) => published || Transitional(kind).None?
    case Snapshot(_, items) => WellFormed(items)
    case Respond(h, r) => Known(s, h, r) ==> !RollsBack(s, r)
    case _ => true
  }

  // ---- steps that leave states alone -----------------------------------------------------

  // Rows keep their state, or go; the overlay keeps or loses entries.
  ghost predicate StatesStay(s: State, s': State) {
    && (forall v :: v in s'.vms ==> v in s.vms && s'.vms[v].state == s.vms[v].state)
    && (forall v :: v in s'.overlay ==> v in s.overlay && s'.overlay[v] == s.overlay[v])
  }

  lemma StayingAgrees(s: State, s': State)
    requires OverlayAgrees(s) && StatesStay(s, s')
    ensures OverlayAgrees(s')
  {
  }

  lemma PlacesAgree(s: State, a: Action)
    requires OfPlaces(a)
    ensures StatesStay(s, Next(s, a))
  {
    PlacesShape(s, a);
    forall v | v in Next(s, a).vms ensures v in s.vms && Next(s, a).vms[v].state == s.vms[v].state {
      assert SameVm(s.vms[v], Next(s, a).vms[v]);
    }
  }

  lemma TaggingAgrees(s: State, r: TagRequest)
    requires Sound(s)
    ensures StatesStay(s, TagSpec(s, r).state)
  {
    if TagSpec(s, r).result.Ok? { TagSteps.TaggingChangesTags(s, r); } else { TagSteps.RefusedTagging(s, r); }
  }

  lemma ForgetStays(s: State, v: Id)
    ensures StatesStay(s, ForgetSpec(s, v).state)
  {
    if ForgetSpec(s, v).result.Ok? {
      assert ForgetSpec(s, v).state.vms == s.vms - {v} && ForgetSpec(s, v).state.overlay == s.overlay - {v};
    }
  }

  lemma SameRowsStay(s: State, s': State)
    requires s'.vms == s.vms && s'.overlay == s.overlay
    ensures StatesStay(s, s')
  {
  }

  lemma HostActionStays(s: State, h: Id, kind: Kind, published: bool)
    ensures StatesStay(s, HostActionSpec(s, h, kind, published).state)
  {
    SameRowsStay(s, s);
    if h in s.hosts {
      HostEnqueueFields(s, h, kind, published);
      SameRowsStay(s, EnqueueHostSpec(s, h, kind, published).state);
    }
  }

  // ---- queueing -------------------------------------------------------------------------------

  lemma EnqueueAgrees(s: State, v: Id, kind: Kind, published: bool)
    requires OverlayAgrees(s) && v in s.vms && (published || Transitional(kind).None?)
    ensures OverlayAgrees(EnqueueSpec(s, v, kind, published).state)
  {
    EnqueueStates(s, v, kind, published);
  }

  // State and overlay entry of the VM after queueing.
  lemma EnqueueStates(s: State, v: Id, kind: Kind, published: bool)
    requires v in s.vms
    ensures var s' := EnqueueSpec(s, v, kind, published).state;
      && s'.vms == (if published then s.vms[v := Optimistic(s.vms[v], kind)] else s.vms)
      && s'.overlay == OptimisticOverlay(s.overlay, v, kind, s.cfg, s.now)
  {
  }

  /** The broker refusing an action leaves the overlay at the optimistic state: it still agrees
      exactly when the row was in that state already, or the action has none. */
  lemma PublishFailureExactly(s: State, v: Id, kind: Kind)
    requires OverlayAgrees(s) && v in s.vms
    ensures OverlayAgrees(EnqueueSpec(s, v, kind, false).state)
      <==> ActionLaws.StateWhile(kind, s.vms[v].state) == s.vms[v].state
  {
    EnqueueStates(s, v, kind, false);
    ActionLaws.TransitionalShows(kind, s.vms[v].state);
    var s' := EnqueueSpec(s, v, kind, false).state;
    if Transitional(kind).Some? {
      assert v in s'.overlay && s'.overlay[v].state == Transitional(kind).value;
    }
  }

  lemma ActionAgrees(s: State, v: Id, kind: Kind, destination: string, published: bool)
    requires OverlayAgrees(s) && (published || Transitional(kind).None?)
    ensures OverlayAgrees(ActionSpec(s, v, kind, destination, published).state)
  {
    if v in s.vms { EnqueueAgrees(s, v, kind, published); }
  }

  lemma InsertAgrees(s: State, h: Id, kind: Kind, columns: Columns, published: bool)
    requires OverlayAgrees(s) && h in s.hosts && s.nextId !in s.overlay
    ensures OverlayAgrees(InsertSpec(s, h, kind, columns, published).state)
  {
    var s' := InsertSpec(s, h, kind, columns, published).state;
    assert s'.overlay == s.overlay;
    assert s'.vms == if published then s.vms[s.nextId := Placeholder(h, s.hosts[h], columns)] else s.vms;
  }

  lemma OverlayIsOld(s: State)
    requires Sound(s)
    ensures s.nextId !in s.overlay
  {
    assert Holds(Ids, s);
  }

  lemma ProvisionAgrees(s: State, h: Id, origin: Origin, destination: string, columns: Columns, published: bool)
    requires Sound(s) && OverlayAgrees(s)
    ensures OverlayAgrees(ProvisionSpec(s, h, origin, destination, columns, published).state)
  {
    if h in s.hosts {
      OverlayIsOld(s);
      InsertAgrees(s, h, ProvisionKind(origin), columns, published);
    }
  }

  // ---- responses ---------------------------------------------------------------------------------

  lemma {:induction false} StatusItemsAgree(b: Block, items: seq<Item>, from: Sender)
    requires Agree(b.vms, b.overlay)
    ensures Agree(StatusItems(b, items, from).b.vms, StatusItems(b, items, from).b.overlay)
  {
    if items != [] {
      StatusItemsAgree(b, items[..|items| - 1], from);
      StatusItemAgrees(StatusItems(b, items[..|items| - 1], from), items[|items| - 1], from);
    }
  }

  lemma StatusItemAgrees(w: Sweepings, it: Item, from: Sender)
    requires Agree(w.b.vms, w.b.overlay)
    ensures Agree(StatusItem(w, it, from).b.vms, StatusItem(w, it, from).b.overlay)
  {
  }

  lemma PlaceholderAgrees(b: Block, r: Response, t: Task, from: Sender)
    requires Agree(b.vms, b.overlay)
    ensures Agree(PlaceholderBlock(b, r, t, from).vms, PlaceholderBlock(b, r, t, from).overlay)
  {
    if t.targetId in b.vms && t.status.Succeeded? {
      var row := Stamped(b.vms[t.targetId], r);
      var b1 := b.(vms := b.vms[t.targetId := row],
                   overlay := Overlaid(b.overlay, t.targetId, row.state, from.cfg, from.now));
      StatusItemsAgree(b1, r.items, from);
    }
  }

  /** The VM block writes rows and overlay in step. */
  lemma BlockAgrees(b: Block, r: Response, t: Task, from: Sender)
    requires Agree(b.vms, b.overlay)
    ensures Agree(VmBlock(b, r, t, from).vms, VmBlock(b, r, t, from).overlay)
  {
    if MakesVm(t.kind) {
      PlaceholderAgrees(b, r, t, from);
    } else if t.status.Succeeded? && !t.kind.VmDelete? {
      StatusItemsAgree(b, r.items, from);
    }
  }

  lemma EndedAgrees(s: State, h: Id, r: Response)
    requires OverlayAgrees(s) && Known(s, h, r) && !RollsBack(s, r)
    ensures OverlayAgrees(Ended(s, h, r))
  {
    RollsBackExactly(s, h, r);
    EndedFields(s, h, r);
    BlockAgrees(BlockOf(s), r, Responses.Finished(s.tasks[r.task], r, s.now), SenderOf(s, h));
  }

  lemma ResponseAgrees(s: State, h: Id, r: Response)
    requires OverlayAgrees(s) && (Known(s, h, r) ==> !RollsBack(s, r))
    ensures OverlayAgrees(ResponseSpec(s, h, r))
  {
    if Known(s, h, r) && !StillRunning(s.tasks[r.task], r) {
      EndedAgrees(s, h, r);
    }
  }

  // The block of a create whose stamped GUID clashes.
  lemma ClashingBlock(b: Block, r: Response, t: Task, from: Sender)
    requires MakesVm(t.kind) && t.status.Succeeded? && t.targetId in b.vms
    requires Clashes(b.vms[t.targetId := Stamped(b.vms[t.targetId], r)], t.targetId)
    ensures var b', row := VmBlock(b, r, t, from), Stamped(b.vms[t.targetId], r);
      b'.raised && b'.overlay == Overlaid(b.overlay, t.targetId, row.state, from.cfg, from.now)
  {
  }

  /** A create that reports a GUID another row of the scope has: the row is rolled back, the
      overlay is not, so they agree exactly when the row already had the reported state. */
  lemma ClashingStampExactly(s: State, h: Id, r: Response, v: Id)
    requires OverlayAgrees(s) && Known(s, h, r) && r.status.SaysSucceeded?
    requires MakesVm(s.tasks[r.task].kind) && v == s.tasks[r.task].targetId && v in s.vms
    requires Clashes(s.vms[v := Stamped(s.vms[v], r)], v)
    ensures OverlayAgrees(ResponseSpec(s, h, r)) <==> Stamped(s.vms[v], r).state == s.vms[v].state
  {
    EndedFields(s, h, r);
    ClashingBlock(BlockOf(s), r, Responses.Finished(s.tasks[r.task], r, s.now), SenderOf(s, h));
    var s' := Ended(s, h, r);
    assert s'.vms == s.vms && s'.overlay[v].state == Stamped(s.vms[v], r).state;
  }

  // ---- every committing run ----------------------------------------------------------------------------

  lemma SnapshotAgrees(s: State, h: Id, items: seq<Item>)
    requires Sound(s) && OverlayAgrees(s) && WellFormed(items)
    ensures OverlayAgrees(SnapshotSpec(s, h, items))
  {
    if h in s.hosts {
      SnapshotSteps.SoundIsReadable(s, h);
      SnapshotKeepsAgreement(s, h, items);
    }
  }

  lemma QuietAgrees(s: State, a: Action)
    requires Sound(s) && OverlayAgrees(s)
    requires OfPlaces(a) || a.Tagging? || a.Forget? || a.ActOnHost? || a.Sweep?
    ensures OverlayAgrees(Next(s, a))
  {
    match a
    case Tagging(r) => TaggingAgrees(s, r); StayingAgrees(s, Next(s, a));
    case Forget(v) => ForgetStays(s, v); StayingAgrees(s, Next(s, a));
    case ActOnHost(h, kind, published) => HostActionStays(s, h, kind, published); StayingAgrees(s, Next(s, a));
    case Sweep => StayingAgrees(s, SweepSpec(s));
    case _ => PlacesAgree(s, a); StayingAgrees(s, Next(s, a));
  }

  /** A step that commits keeps the agreement. */
  lemma NextAgrees(s: State, a: Action)
    requires Sound(s) && OverlayAgrees(s) && Commits(s, a)
    ensures OverlayAgrees(Next(s, a))
  {
    match a
    case ActOnVm(v, kind, destination, published) => ActionAgrees(s, v, kind, destination, published);
    case ProvisionVm(h, origin, destination, columns, published) =>
      ProvisionAgrees(s, h, origin, destination, columns, published);
    case Respond(h, r) => ResponseAgrees(s, h, r);
    case Snapshot(h, items) => SnapshotAgrees(s, h, items);
    case Tick(_) =>
    case ForceRelease(_) =>
    case Prune(_) =>
    case _ => QuietAgrees(s, a);
  }

  ghost predicate CommittedRun(s: State, actions: seq<Action>) {
    forall i :: 0 <= i < |actions| ==> Commits(Run(s, actions[..i]), actions[i])
  }

  lemma {:induction false} CommittedRunAgrees(cfg: Settings, now: Time, actions: seq<Action>)
    requires CommittedRun(Empty(cfg, now), actions)
    ensures OverlayAgrees(Run(Empty(cfg, now), actions))
  {
    if actions != [] {
      var init, a, start := actions[..|actions| - 1], actions[|actions| - 1], Empty(cfg, now);
      forall i | 0 <= i < |init| ensures Commits(Run(start, init[..i]), init[i]) { assert init[..i] == actions[..i]; }
      CommittedRunAgrees(cfg, now, init);
      RunSound(cfg, now, init);
      assert actions[..|init|] == init;
      NextAgrees(Run(start, init), a);
    }
  }

  /** In every run whose transactions commit, asking for the VMs in any state but "Unknown"
      returns exactly the visible ones displayed in that state. */
  lemma ListingIsExactInRuns(cfg: Settings, now: Time, actions: seq<Action>, scope: Rbac.Scope, f: Listing.Filter)
    requires CommittedRun(Empty(cfg, now), actions) && f.state != Some("Unknown")
    ensures Listing.ListVms(Run(Empty(cfg, now), actions), scope, f) == Listing.Wanted(Run(Empty(cfg, now), actions), scope, f)
  {
    CommittedRunAgrees(cfg, now, actions);
    Listing.ListingIsExact(Run(Empty(cfg, now), actions), scope, f);
  }
}
