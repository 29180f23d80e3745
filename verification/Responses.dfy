/** Task responses from the agent: lifecycle, audit settlement, VM state, lock release
    (apply_response and its helpers in app/services/inventory.py). */
module Responses {
  import opened Wrappers
  import opened Model
  import opened VmRow
  import opened CacheOps
  import opened Audit

  // ---- the optimistic power states ------------------------------------------------------

  /** State stamped while a power action runs. */
  function Transitional(kind: Kind): Option<string> {
    match kind
    case VmStart => Some("Starting")
    case VmStop | VmShutdown => Some("Stopping")
    case VmRestart => Some("Restarting")
    case VmPause => Some("Pausing")
    case VmDelete => Some("Deleting")
    case _ => None
  }

  /** State a failed power action is rolled back to; a failed delete is not. */
  function Reverted(kind: Kind): Option<string> {
    match kind
    case VmStart => Some("Off")
    case VmStop | VmShutdown | VmRestart | VmPause => Some("Running")
    case _ => None
  }

  // ---- task lifecycle ----------------------------------------------------------------------

  predicate StillRunning(t: Task, r: Response) {
    r.status.SaysRunning? && !Terminal(t.status)
  }

  function Progressed(t: Task, r: Response, now: Time): Task {
    t.(status := Running,
       startedAt := if t.startedAt.Some? then t.startedAt else Some(now),
       progress := if r.progress.Some? then r.progress else t.progress)
  }

  function Finished(t: Task, r: Response, now: Time): Task {
    var ok := r.status.SaysSucceeded?;
    t.(status := if ok then Succeeded else Failed,
       finishedAt := if r.finishedAt.Some? then r.finishedAt else Some(now),
       progress := if ok then Some(100) else t.progress,
       error := if ok && NoText(r.error) && !NoText(r.warning) then r.warning else r.error)
  }

  predicate NoText(s: Option<string>) {
    s.None? || s.value == ""
  }

  // ---- the VM block, inside a SAVEPOINT ------------------------------------------------------

  // The rows and cache entries the block works on; `raised` rolls back the rows only.
  datatype Block = Block(vms: map<Id, Vm>, overlay: map<Id, Cached>, tombs: map<TombKey, Time>, raised: bool)

  /** Row with this GUID on this host, lowest id first (the indexes leave at most one). */
  function FindRow(vms: map<Id, Vm>, g: Guid, host: Id, n: Id): (found: Option<Id>)
    ensures found.Some? ==> found.value in vms && found.value < n && HasGuid(vms[found.value], g) && vms[found.value].host == host
    ensures found.None? ==> forall id :: id in vms && id < n ==> !(HasGuid(vms[id], g) && vms[id].host == host)
  {
    if n == 0 then None
    else
      var earlier := FindRow(vms, g, host, n - 1);
      if earlier.Some? then earlier
      else if n - 1 in vms && HasGuid(vms[n - 1], g) && vms[n - 1].host == host then Some(n - 1) else None
  }

  datatype Sweepings = Sweepings(b: Block, updated: bool)

  // Fixed while a response is applied: where it came from, and the table's size.
  datatype Sender = Sender(host: Id, cluster: Option<Id>, cfg: Settings, now: Time, n: Id)

  function StatusItem(w: Sweepings, it: Item, from: Sender): Sweepings {
    if w.b.raised || it.Malformed? then w.(b := w.b.(raised := true))
    else
      var g := GuidOf(it.raw);
      if g.None? then w
      else
        var id := FindRow(w.b.vms, g.value, from.host, from.n);
        if id.None? then w
        else
          var row := WriteVmRowSpec(w.b.vms[id.value], it.raw, from.host, from.cluster, true, from.now);
          Sweepings(w.b.(vms := w.b.vms[id.value := row],
                         overlay := Overlaid(w.b.overlay, id.value, row.state, from.cfg, from.now)),
                    true)
  }

  /** Apply the VM objects attached to a response, in order; never creates or deletes rows. */
  function StatusItems(b: Block, items: seq<Item>, from: Sender): Sweepings {
    if items == [] then Sweepings(b, false)
    else StatusItem(StatusItems(b, items[..|items| - 1], from), items[|items| - 1], from)
  }

  /** Would this row clash with another one in the unique indexes? */
  predicate Clashes(vms: map<Id, Vm>, id: Id)
    requires id in vms
  {
    exists other :: other in vms && other != id && vms[other].guid.Some?
                 && vms[other].guid == vms[id].guid && SameScope(vms[other], vms[id])
  }

  function Stamped(vm: Vm, r: Response): Vm {
    vm.(guid := if r.vmId != "" then Some(r.vmId) else vm.guid,
        state := if r.vmState != "" then r.vmState else "Off")
  }

  function SetRowState(b: Block, id: Id, state: string, from: Sender): Block
    requires id in b.vms
  {
    b.(vms := b.vms[id := b.vms[id].(state := state)],
       overlay := Overlaid(b.overlay, id, state, from.cfg, from.now))
  }

  function DropRow(b: Block, id: Id): Block {
    b.(vms := b.vms - {id}, overlay := b.overlay - {id})
  }

  /** vm_create / vm_clone: stamp the placeholder, or drop it. */
  function PlaceholderBlock(b: Block, r: Response, t: Task, from: Sender): Block {
    if t.targetId !in b.vms then b
    else if !t.status.Succeeded? then DropRow(b, t.targetId)
    else
      var row := Stamped(b.vms[t.targetId], r);
      var b1 := b.(vms := b.vms[t.targetId := row],
                   overlay := Overlaid(b.overlay, t.targetId, row.state, from.cfg, from.now));
      if Clashes(b1.vms, t.targetId) then b1.(raised := true)
      else StatusItems(b1, r.items, from).b
  }

  /** A successful vm_delete: tombstone the GUID, drop the row. */
  function DeleteBlock(b: Block, t: Task, from: Sender): Block {
    var buried := if t.targetId in b.vms && b.vms[t.targetId].guid.Some?
                  then b.(tombs := Buried(b.tombs, from.host, b.vms[t.targetId].guid.value, from.now)) else b;
    DropRow(buried, t.targetId)
  }

  /** Any other success: the attached VM objects, else the bare vm_id / vm_state hint. */
  function RefreshBlock(b: Block, r: Response, from: Sender): Block {
    var w := StatusItems(b, r.items, from);
    if w.b.raised || w.updated || r.vmId == "" || r.vmState == "" then w.b
    else
      var id := FindRow(w.b.vms, r.vmId, from.host, from.n);
      if id.None? then w.b else SetRowState(w.b, id.value, r.vmState, from)
  }

  /** A failed power action: undo the optimistic state if it is still there. */
  function RevertBlock(b: Block, t: Task, from: Sender): Block {
    var to := Reverted(t.kind);
    if to.Some? && t.target.OnVm? && t.targetId in b.vms && Some(b.vms[t.targetId].state) == Transitional(t.kind)
    then SetRowState(b, t.targetId, to.value, from) else b
  }

  function VmBlock(b: Block, r: Response, t: Task, from: Sender): Block {
    if MakesVm(t.kind) then PlaceholderBlock(b, r, t, from)
    else if t.kind.VmDelete? && t.status.Succeeded? then DeleteBlock(b, t, from)
    else if t.status.Succeeded? then RefreshBlock(b, r, from)
    else RevertBlock(b, t, from)
  }

  function BlockOf(s: State): Block {
    Block(s.vms, s.overlay, s.tombs, false)
  }

  /** What the savepoint leaves: cache writes always, row writes unless it rolled back. */
  function Land(s: State, b: Block): State {
    s.(vms := if b.raised then s.vms else b.vms, overlay := b.overlay, tombs := b.tombs)
  }

  function SenderOf(s: State, h: Id): Sender {
    Sender(h, if h in s.hosts then s.hosts[h].cluster else None, s.cfg, s.now, s.nextId)
  }

  predicate Known(s: State, h: Id, r: Response) {
    r.task in s.tasks && s.tasks[r.task].host == h
  }

  /** The state after the lifecycle change and the audit settlement, before the VM block. */
  function Closed(s: State, r: Response): State
    requires r.task in s.tasks
  {
    var t := Finished(s.tasks[r.task], r, s.now);
    s.(tasks := s.tasks[r.task := t], events := Settle(s.events, {r.task}, t.status, t.error))
  }

  /** One response of host `h`, whatever the task's status is by now. */
  function ResponseSpec(s: State, h: Id, r: Response): State {
    if !Known(s, h, r) then s
    else
      var t := s.tasks[r.task];
      if StillRunning(t, r) then s.(tasks := s.tasks[r.task := Progressed(t, r, s.now)]) else Ended(s, h, r)
  }

  function Worked(s: State, h: Id, r: Response): Block
    requires Known(s, h, r)
  {
    VmBlock(BlockOf(s), r, Finished(s.tasks[r.task], r, s.now), SenderOf(s, h))
  }

  /** A terminal response: close the task, run the VM block in its savepoint, free the lock. */
  function Ended(s: State, h: Id, r: Response): State
    requires Known(s, h, r)
  {
    var t := Finished(s.tasks[r.task], r, s.now);
    var s1 := Closed(s, r);
    var s2 := Land(s1, Worked(s, h, r));
    if t.target.OnVm? then s2.(locks := Released(s2.locks, t.targetId, r.task, s.now)) else s2
  }

  /** What a terminal response leaves, field by field. */
  lemma EndedFields(s: State, h: Id, r: Response)
    requires Known(s, h, r)
    ensures var t, b := Finished(s.tasks[r.task], r, s.now), Worked(s, h, r);
      Ended(s, h, r) == s.(tasks := s.tasks[r.task := t],
                           events := Settle(s.events, {r.task}, t.status, t.error),
                           locks := if t.target.OnVm? then Released(s.locks, t.targetId, r.task, s.now) else s.locks,
                           vms := if b.raised then s.vms else b.vms,
                           overlay := b.overlay,
                           tombs := b.tombs)
  {
  }

  // ---- the handler ---------------------------------------------------------------------------

  method LookUp(db: Database, g: Guid, host: Id) returns (found: Option<Id>)
    ensures found == FindRow(db.vms, g, host, db.nextId)
  {
    found := None;
    for id := 0 to db.nextId
      invariant found == FindRow(db.vms, g, host, id)
    {
      if found.None? && id in db.vms && db.vms[id].guid == Some(g) && db.vms[id].host == host {
        found := Some(id);
      }
    }
  }

  function BlockIn(db: Database, cache: Cache, raised: bool): Block
    reads db`vms, cache`overlay, cache`tombs
  {
    Block(db.vms, cache.overlay, cache.tombs, raised)
  }

  method ApplyVmStatus(db: Database, cache: Cache, items: seq<Item>, from: Sender) returns (updated: bool, raised: bool)
    requires from.n == db.nextId
    modifies db`vms, cache`overlay
    ensures Sweepings(BlockIn(db, cache, raised), updated) == StatusItems(old(BlockIn(db, cache, false)), items, from)
  {
    updated, raised := false, false;
    ghost var b0 := BlockIn(db, cache, false);
    var i := 0;
    while i < |items| && !raised
      invariant 0 <= i <= |items|
      invariant Sweepings(BlockIn(db, cache, raised), updated) == StatusItems(b0, items[..i], from)
      invariant cache.tombs == b0.tombs
      decreases |items| - i
    {
      StatusStep(b0, items, i, from);
      if items[i].Malformed? {
        raised := true;
      } else {
        var g := GuidOf(items[i].raw);
        if g.Some? {
          var id := LookUp(db, g.value, from.host);
          if id.Some? {
            var row := WriteVmRow(db.vms[id.value], items[i].raw, from.host, from.cluster, true, from.now);
            db.vms := db.vms[id.value := row];
            SetVmState(cache, id.value, row.state, from.cfg, from.now);
            updated := true;
          }
        }
      }
      i := i + 1;
    }
    if raised { StatusAfterRaise(b0, items, i, from); }
    assert items[..|items|] == items;
  }

  lemma StatusStep(b: Block, items: seq<Item>, i: nat, from: Sender)
    requires i < |items|
    ensures StatusItems(b, items[..i + 1], from) == StatusItem(StatusItems(b, items[..i], from), items[i], from)
  {
    assert items[..i + 1][..i] == items[..i];
  }

  lemma {:induction false} StatusAfterRaise(b: Block, items: seq<Item>, i: nat, from: Sender)
    requires i <= |items| && StatusItems(b, items[..i], from).b.raised
    ensures StatusItems(b, items, from) == StatusItems(b, items[..i], from)
    decreases |items|
  {
    if i == |items| {
      assert items[..i] == items;
    } else {
      assert items[..|items| - 1][..i] == items[..i];
      StatusAfterRaise(b, items[..|items| - 1], i, from);
    }
  }

  method SetVmRowState(db: Database, cache: Cache, id: Id, state: string, from: Sender)
    requires id in db.vms
    modifies db`vms, cache`overlay
    ensures BlockIn(db, cache, false) == SetRowState(old(BlockIn(db, cache, false)), id, state, from)
  {
    db.vms := db.vms[id := db.vms[id].(state := state)];
    SetVmState(cache, id, state, from.cfg, from.now);
  }

  method ApplyPlaceholder(db: Database, cache: Cache, r: Response, t: Task, from: Sender) returns (raised: bool)
    requires from.n == db.nextId
    modifies db`vms, cache`overlay
    ensures BlockIn(db, cache, raised) == PlaceholderBlock(old(BlockIn(db, cache, false)), r, t, from)
  {
    raised := false;
    if t.targetId in db.vms {
      if t.status.Succeeded? {
        var row := Stamped(db.vms[t.targetId], r);
        db.vms := db.vms[t.targetId := row];
        SetVmState(cache, t.targetId, row.state, from.cfg, from.now);
        if Clashes(db.vms, t.targetId) {
          raised := true;
        } else {
          var _, failed := ApplyVmStatus(db, cache, r.items, from);
          raised := failed;
        }
      } else {
        db.vms := db.vms - {t.targetId};
        ClearVmState(cache, t.targetId);
      }
    }
  }

  method ApplyResponseState(db: Database, cache: Cache, r: Response, t: Task, from: Sender) returns (raised: bool)
    requires from.n == db.nextId
    modifies db`vms, cache`overlay, cache`tombs
    ensures BlockIn(db, cache, raised) == VmBlock(old(BlockIn(db, cache, false)), r, t, from)
  {
    raised := false;
    if MakesVm(t.kind) {
      raised := ApplyPlaceholder(db, cache, r, t, from);
    } else if t.kind == VmDelete && t.status == Succeeded {
      if t.targetId in db.vms && db.vms[t.targetId].guid.Some? {
        MarkVmDeleted(cache, from.host, db.vms[t.targetId].guid.value, from.now);
      }
      db.vms := db.vms - {t.targetId};
      ClearVmState(cache, t.targetId);
    } else if t.status == Succeeded {
      var updated, failed := ApplyVmStatus(db, cache, r.items, from);
      raised := failed;
      if !failed && r.vmId != "" && r.vmState != "" && !updated {
        var id := LookUp(db, r.vmId, from.host);
        if id.Some? {
          SetVmRowState(db, cache, id.value, r.vmState, from);
        }
      }
    } else {
      var to := Reverted(t.kind);
      if to.Some? && t.target == OnVm && t.targetId in db.vms && Some(db.vms[t.targetId].state) == Transitional(t.kind) {
        SetVmRowState(db, cache, t.targetId, to.value, from);
      }
    }
  }

  /** The VM block in its savepoint: a raise rolls the rows back, never the cache. */
  method ApplyInSavepoint(db: Database, cache: Cache, r: Response, t: Task, from: Sender)
    requires from.n == db.nextId
    modifies db`vms, cache`overlay, cache`tombs
    ensures var b := VmBlock(old(BlockIn(db, cache, false)), r, t, from);
      && db.vms == (if b.raised then old(db.vms) else b.vms)
      && cache.overlay == b.overlay && cache.tombs == b.tombs
  {
    var savepoint := db.vms;
    var raised := ApplyResponseState(db, cache, r, t, from);
    if raised {
      db.vms := savepoint;
    }
  }

  method ApplyTerminal(db: Database, cache: Cache, cfg: Settings, now: Time, h: Id, r: Response)
    requires Known(Snap(db, cache, cfg, now), h, r) && !StillRunning(db.tasks[r.task], r)
    modifies db`tasks, db`events, db`vms, cache
    ensures Snap(db, cache, cfg, now) == Ended(old(Snap(db, cache, cfg, now)), h, r)
  {
    var t := Finished(db.tasks[r.task], r, now);
    db.tasks := db.tasks[r.task := t];
    db.events := Settle(db.events, {r.task}, t.status, t.error);
    var from := Sender(h, if h in db.hosts then db.hosts[h].cluster else None, cfg, now, db.nextId);
    ApplyInSavepoint(db, cache, r, t, from);
    if t.target == OnVm {
      var _ := ReleaseVmLock(cache, t.targetId, r.task, now);
    }
  }

  method ApplyProgress(db: Database, ghost cache: Cache, ghost cfg: Settings, now: Time, r: Response)
    requires r.task in db.tasks
    modifies db`tasks
    ensures var s := old(Snap(db, cache, cfg, now));
      Snap(db, cache, cfg, now) == s.(tasks := s.tasks[r.task := Progressed(s.tasks[r.task], r, now)])
  {
    db.tasks := db.tasks[r.task := Progressed(db.tasks[r.task], r, now)];
  }

  method ApplyResponse(db: Database, cache: Cache, cfg: Settings, now: Time, h: Id, r: Response)
    modifies db`tasks, db`events, db`vms, cache
    ensures Snap(db, cache, cfg, now) == ResponseSpec(old(Snap(db, cache, cfg, now)), h, r)
  {
    if r.task !in db.tasks || db.tasks[r.task].host != h {
      return;
    }
    if r.status.SaysRunning? && !Terminal(db.tasks[r.task].status) {
      ApplyProgress(db, cache, cfg, now, r);
    } else {
      ApplyTerminal(db, cache, cfg, now, h, r);
    }
  }
}
