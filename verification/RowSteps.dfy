/** What the steps do to the rows of the VM table, apart from state and columns. */
module RowSteps {
  import opened Wrappers
  import opened Model
  import opened VmRow
  import opened CacheOps
  import opened Responses
  import opened Invariants
  import opened Tags
  import opened TagLaws

  /** The same row as far as identity and place go. */
  ghost predicate SamePlace(a: Vm, b: Vm) {
    a.guid == b.guid && a.host == b.host && a.cluster == b.cluster && a.folder == b.folder && a.tags == b.tags
  }

  /** Only state, columns and timestamps change; rows may go. */
  ghost predicate Kept(before: map<Id, Vm>, after: map<Id, Vm>) {
    forall v :: v in after ==> v in before && SamePlace(before[v], after[v])
  }

  // A row that may stand where it stands: on its old host, or on another node of its cluster.
  ghost predicate Carries(s: State, was: Vm, row: Vm) {
    && row.host in s.hosts && row.cluster == s.hosts[row.host].cluster
    && row.folder == was.folder && row.tags == was.tags
    && (row.host == was.host
        || (was.host in s.hosts && s.hosts[was.host].cluster.Some? && s.hosts[row.host].cluster == s.hosts[was.host].cluster))
  }

  ghost predicate Starts(s: State, row: Vm) {
    && row.host in s.hosts && row.cluster == s.hosts[row.host].cluster
    && row.folder == None && row.tags == {}
  }

  ghost predicate RowsFit(s: State, vms: map<Id, Vm>) {
    forall v :: v in vms ==> (v in s.vms && Carries(s, s.vms[v], vms[v])) || Starts(s, vms[v])
  }

  // Everything the VM table is checked against is the same.
  ghost predicate SameSurroundings(s: State, s': State) {
    && s'.hosts == s.hosts && s'.clusters == s.clusters && s'.folders == s.folders
    && s'.tags == s.tags && s'.categories == s.categories
  }

  lemma PlacesCarryOver(s: State, s': State)
    requires Sound(s) && RowsFit(s, s'.vms) && SameSurroundings(s, s')
    ensures Keeps(Places, s')
  {
    assert Holds(Places, s);
  }

  ghost predicate SameTags(s: State, s': State) {
    && s'.tags == s.tags && s'.categories == s.categories
    && forall v :: v in s'.vms ==> s'.vms[v].tags == {} || (v in s.vms && s'.vms[v].tags == s.vms[v].tags)
  }

  lemma LabelsCarryOver(s: State, s': State)
    requires Sound(s) && SameTags(s, s')
    ensures Keeps(Labels, s')
  {
    assert Holds(Labels, s);
    TagsUntouched(s, s');
  }

  lemma UniqueIsKept(s: State)
    requires GuidsUnique(s.vms)
    ensures Keeps(Guids, s)
  {
  }

  lemma KeptFits(s: State, after: map<Id, Vm>)
    requires Sound(s) && Kept(s.vms, after)
    ensures RowsFit(s, after)
  {
    assert Holds(Places, s);
    forall v | v in after ensures Carries(s, s.vms[v], after[v]) {
      assert SamePlace(s.vms[v], after[v]);
    }
  }

  lemma KeptGuids(s: State, s': State)
    requires Sound(s) && Kept(s.vms, s'.vms)
    ensures Keeps(Guids, s')
  {
    assert Holds(Guids, s);
    KeptIsUnique(s.vms, s'.vms);
  }

  lemma KeptTags(s: State, s': State)
    requires Sound(s) && Kept(s.vms, s'.vms) && SameSurroundings(s, s')
    ensures SameTags(s, s')
  {
    forall v | v in s'.vms ensures v in s.vms && s'.vms[v].tags == s.vms[v].tags {
      assert SamePlace(s.vms[v], s'.vms[v]);
    }
  }

  /** Rows that only change state, or go, disturb nothing. */
  lemma KeptTables(s: State, s': State)
    requires Sound(s) && Kept(s.vms, s'.vms) && SameSurroundings(s, s')
    ensures Keeps(Places, s') && Keeps(Guids, s') && Keeps(Labels, s')
  {
    KeptFits(s, s'.vms);
    PlacesCarryOver(s, s');
    KeptGuids(s, s');
    KeptTags(s, s');
    LabelsCarryOver(s, s');
  }

  lemma KeptIsUnique(before: map<Id, Vm>, after: map<Id, Vm>)
    requires GuidsUnique(before) && Kept(before, after)
    ensures GuidsUnique(after)
  {
    forall a, b | a in after && b in after && a != b && after[a].guid.Some? && after[a].guid == after[b].guid
      ensures !SameScope(after[a], after[b])
    {
      assert SamePlace(before[a], after[a]) && SamePlace(before[b], after[b]);
    }
  }

  // ---- the VM block of a response -------------------------------------------------------------

  /** The sender's rows carry the sender's cluster. */
  ghost predicate Synced(vms: map<Id, Vm>, from: Sender) {
    forall v :: v in vms && vms[v].host == from.host ==> vms[v].cluster == from.cluster
  }

  lemma KeptTrans(a: map<Id, Vm>, b: map<Id, Vm>, c: map<Id, Vm>)
    requires Kept(a, b) && Kept(b, c)
    ensures Kept(a, c)
  {
    forall v | v in c ensures v in a && SamePlace(a[v], c[v]) {
      assert SamePlace(b[v], c[v]);
    }
  }

  lemma OneRowKept(vms: map<Id, Vm>, id: Id, row: Vm)
    requires id in vms && SamePlace(vms[id], row)
    ensures Kept(vms, vms[id := row])
  {
  }

  // Keys the block adds to the overlay are those of existing rows.
  ghost predicate Tame(b: Block, b': Block) {
    Kept(b.vms, b'.vms) && b'.overlay.Keys <= b.overlay.Keys + b.vms.Keys
  }

  lemma StatusRow(w: Sweepings, it: Item, from: Sender)
    requires Synced(w.b.vms, from)
    ensures Tame(w.b, StatusItem(w, it, from).b) && StatusItem(w, it, from).b.tombs == w.b.tombs
  {
    if !w.b.raised && it.Item? && GuidOf(it.raw).Some? {
      var id := FindRow(w.b.vms, GuidOf(it.raw).value, from.host, from.n);
      if id.Some? {
        var row := WriteVmRowSpec(w.b.vms[id.value], it.raw, from.host, from.cluster, true, from.now);
        OneRowKept(w.b.vms, id.value, row);
      }
    }
  }

  lemma {:induction false} StatusRows(b: Block, items: seq<Item>, from: Sender)
    requires Synced(b.vms, from)
    ensures Tame(b, StatusItems(b, items, from).b) && StatusItems(b, items, from).b.tombs == b.tombs
  {
    if items != [] {
      var w := StatusItems(b, items[..|items| - 1], from);
      StatusRows(b, items[..|items| - 1], from);
      SyncedKept(b.vms, w.b.vms, from);
      StatusRow(w, items[|items| - 1], from);
      KeptTrans(b.vms, w.b.vms, StatusItem(w, items[|items| - 1], from).b.vms);
    }
  }

  lemma SyncedKept(before: map<Id, Vm>, after: map<Id, Vm>, from: Sender)
    requires Synced(before, from) && Kept(before, after)
    ensures Synced(after, from)
  {
    forall v | v in after && after[v].host == from.host ensures after[v].cluster == from.cluster {
      assert SamePlace(before[v], after[v]);
    }
  }

  lemma RefreshRows(b: Block, r: Response, from: Sender)
    requires Synced(b.vms, from)
    ensures Tame(b, RefreshBlock(b, r, from))
  {
    StatusRows(b, r.items, from);
    var w := StatusItems(b, r.items, from);
    var id := FindRow(w.b.vms, r.vmId, from.host, from.n);
    if id.Some? {
      var row := w.b.vms[id.value].(state := r.vmState);
      OneRowKept(w.b.vms, id.value, row);
      KeptTrans(b.vms, w.b.vms, w.b.vms[id.value := row]);
    }
  }

  // The placeholder with the GUID the agent gave it.
  function Stamping(vms: map<Id, Vm>, r: Response, t: Task): map<Id, Vm>
    requires t.targetId in vms
  {
    vms[t.targetId := Stamped(vms[t.targetId], r)]
  }

  /** A placeholder may get its GUID: the table it is checked against is unique with it. */
  lemma StampedIsUnique(vms: map<Id, Vm>, r: Response, t: Task)
    requires t.targetId in vms && GuidsUnique(vms) && !Clashes(Stamping(vms, r, t), t.targetId)
    ensures GuidsUnique(Stamping(vms, r, t))
  {
    var after := Stamping(vms, r, t);
    forall a, b | a in after && b in after && a != b && after[a].guid.Some? && after[a].guid == after[b].guid
      ensures !SameScope(after[a], after[b])
    {
      if a == t.targetId {
        assert SameScope(after[b], after[a]) == SameScope(after[a], after[b]);
      }
    }
  }

  /** Where the block may leave the rows: as they were, or with the placeholder stamped. */
  ghost predicate Stamps(vms: map<Id, Vm>, r: Response, t: Task, after: map<Id, Vm>) {
    || Kept(vms, after)
    || (&& MakesVmTask(t) && t.targetId in vms && !Clashes(Stamping(vms, r, t), t.targetId)
        && Kept(Stamping(vms, r, t), after))
  }

  predicate MakesVmTask(t: Task) {
    MakesVm(t.kind) && t.status.Succeeded?
  }

  lemma PlaceholderRows(b: Block, r: Response, t: Task, from: Sender)
    requires Synced(b.vms, from) && MakesVm(t.kind)
    ensures var b' := PlaceholderBlock(b, r, t, from);
      b'.overlay.Keys <= b.overlay.Keys + b.vms.Keys && (!b'.raised ==> Stamps(b.vms, r, t, b'.vms))
  {
    if t.targetId in b.vms && t.status.Succeeded? {
      var b1 := b.(vms := Stamping(b.vms, r, t),
                   overlay := Overlaid(b.overlay, t.targetId, Stamped(b.vms[t.targetId], r).state, from.cfg, from.now));
      assert Synced(b1.vms, from) by {
        forall v | v in b1.vms && b1.vms[v].host == from.host ensures b1.vms[v].cluster == from.cluster {
          assert v in b.vms;
        }
      }
      StatusRows(b1, r.items, from);
    }
  }

  lemma BlockRows(b: Block, r: Response, t: Task, from: Sender)
    requires Synced(b.vms, from)
    ensures var b' := VmBlock(b, r, t, from);
      b'.overlay.Keys <= b.overlay.Keys + b.vms.Keys && (!b'.raised ==> Stamps(b.vms, r, t, b'.vms))
  {
    if MakesVm(t.kind) {
      PlaceholderRows(b, r, t, from);
    } else if t.status.Succeeded? && !t.kind.VmDelete? {
      RefreshRows(b, r, from);
    } else {
      assert Kept(b.vms, VmBlock(b, r, t, from).vms);
    }
  }

  lemma StampsFit(s: State, r: Response, t: Task, after: map<Id, Vm>)
    requires ClusterSync(s) && GuidsUnique(s.vms) && Stamps(s.vms, r, t, after)
    ensures RowsFit(s, after) && GuidsUnique(after)
  {
    var base := if Kept(s.vms, after) then s.vms else Stamping(s.vms, r, t);
    if !Kept(s.vms, after) { StampedIsUnique(s.vms, r, t); }
    KeptIsUnique(base, after);
    forall v | v in after ensures Carries(s, s.vms[v], after[v]) {
      assert SamePlace(base[v], after[v]);
    }
  }
}
