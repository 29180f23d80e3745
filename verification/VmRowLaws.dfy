/** What full and partial row writes promise each other. */
module VmRowLaws {
  import opened Wrappers
  import opened Model
  import opened VmRow

  predicate StateSignalled(raw: Raw) {
    "state" in raw || "powerState" in raw
  }

  lemma UnsignalledIsAbsent(raw: Raw, c: Column)
    requires c == MetricsEnabled || c == GuestOs
    requires !Signalled(raw, c)
    ensures Canonical(raw, c) == Null
  {
    assert Signals(c)[0] in Signals(c);
  }

  // A partial payload writes only columns it signals.
  lemma WritesAreSignalled(raw: Raw, c: Column)
    requires Writes(PatchOf(raw, true), c)
    ensures Signalled(raw, c)
  {
    var p := PatchOf(raw, true);
    assert At(p.fields, c) == Canonical(raw, c);
    if !Signalled(raw, c) && (c == MetricsEnabled || c == GuestOs) {
      UnsignalledIsAbsent(raw, c);
    }
  }

  lemma ColumnAfter(vm: Vm, raw: Raw, host: Id, cluster: Option<Id>, partial: bool, now: Time, c: Column)
    ensures var p := PatchOf(raw, partial);
      At(WriteVmRowSpec(vm, raw, host, cluster, partial, now).columns, c)
        == if Writes(p, c) then Written(p, c, At(vm.columns, c), vm.guid) else At(vm.columns, c)
  {
  }

  /** A sparse status update never disturbs what it does not report. */
  lemma PartialWriteIsFramed(vm: Vm, raw: Raw, host: Id, cluster: Option<Id>, now: Time)
    ensures var row := WriteVmRowSpec(vm, raw, host, cluster, true, now);
      && (forall c | !Signalled(raw, c) :: At(row.columns, c) == At(vm.columns, c))
      && (!StateSignalled(raw) ==> row.state == vm.state)
      && row.guid == vm.guid && row.folder == vm.folder && row.tags == vm.tags
  {
    var row := WriteVmRowSpec(vm, raw, host, cluster, true, now);
    forall c | !Signalled(raw, c) ensures At(row.columns, c) == At(vm.columns, c) {
      ColumnAfter(vm, raw, host, cluster, true, now, c);
      if Writes(PatchOf(raw, true), c) { WritesAreSignalled(raw, c); }
    }
  }

  predicate Disjoint(a: Raw, b: Raw) {
    && !(StateSignalled(a) && StateSignalled(b))
    && forall c :: !(Signalled(a, c) && Signalled(b, c))
  }

  /** Two partial updates that report different things can arrive in either order. */
  lemma PartialWritesCommute(vm: Vm, a: Raw, b: Raw, host: Id, cluster: Option<Id>, now: Time)
    requires Disjoint(a, b)
    ensures WriteVmRowSpec(WriteVmRowSpec(vm, a, host, cluster, true, now), b, host, cluster, true, now)
         == WriteVmRowSpec(WriteVmRowSpec(vm, b, host, cluster, true, now), a, host, cluster, true, now)
  {
    var pa, pb := PatchOf(a, true), PatchOf(b, true);
    forall c ensures !(Writes(pa, c) && Writes(pb, c)) {
      if Writes(pa, c) { WritesAreSignalled(a, c); }
      if Writes(pb, c) { WritesAreSignalled(b, c); }
    }
    ChangesCommute(vm.columns, pa, pb, vm.guid);
    StateWritesCommute(vm.state, a, b);
  }

  lemma StateWritesCommute(state: string, a: Raw, b: Raw)
    requires !(StateSignalled(a) && StateSignalled(b))
    ensures WriteState(WriteState(state, a, true), b, true) == WriteState(WriteState(state, b, true), a, true)
  {
  }

  lemma ChangesUnderOther(columns: Columns, p: Patch, q: Patch, guid: Option<Guid>)
    requires forall c :: !(Writes(p, c) && Writes(q, c))
    ensures Changes(columns + Changes(columns, ALL, p, guid), ALL, q, guid) == Changes(columns, ALL, q, guid)
  {
    var m := columns + Changes(columns, ALL, p, guid);
    forall c | c in ALL && Writes(q, c) ensures At(m, c) == At(columns, c) {}
  }

  lemma MergesCommute<K, V>(m: map<K, V>, a: map<K, V>, b: map<K, V>)
    requires a.Keys !! b.Keys
    ensures m + a + b == m + b + a
  {
  }

  lemma ChangesCommute(columns: Columns, p: Patch, q: Patch, guid: Option<Guid>)
    requires forall c :: !(Writes(p, c) && Writes(q, c))
    ensures var mp := columns + Changes(columns, ALL, p, guid);
      var mq := columns + Changes(columns, ALL, q, guid);
      mp + Changes(mp, ALL, q, guid) == mq + Changes(mq, ALL, p, guid)
  {
    ChangesUnderOther(columns, p, q, guid);
    ChangesUnderOther(columns, q, p, guid);
    MergesCommute(columns, Changes(columns, ALL, p, guid), Changes(columns, ALL, q, guid));
  }

  lemma RewriteKeepsColumn(p: Patch, q: Patch, c: Column, held: Json, guid: Option<Guid>)
    requires !p.partial && q.partial && p.fields == q.fields && p.reported == ALL
    requires Writes(q, c)
    ensures Writes(p, c) && Written(q, c, Written(p, c, held, guid), guid) == Written(p, c, held, guid)
  {
  }

  /** Repeating as a status update the payload just taken as an inventory entry changes
      the timestamp only. */
  lemma PartialAfterFullIsNoOp(vm: Vm, raw: Raw, host: Id, cluster: Option<Id>, first: Time, second: Time)
    ensures var full := WriteVmRowSpec(vm, raw, host, cluster, false, first);
      WriteVmRowSpec(full, raw, host, cluster, true, second) == full.(inventoriedAt := Some(second))
  {
    var full := WriteVmRowSpec(vm, raw, host, cluster, false, first);
    var p, q := PatchOf(raw, false), PatchOf(raw, true);
    var again := Changes(full.columns, ALL, q, vm.guid);
    forall c | c in again ensures c in full.columns && again[c] == full.columns[c] {
      RewriteKeepsColumn(p, q, c, At(vm.columns, c), vm.guid);
      ColumnAfter(vm, raw, host, cluster, false, first, c);
    }
    assert full.columns + again == full.columns;
  }

  /** The one signal nothing reads: a status update that carries `powerState` but no
      `state` resets the row to Unknown. */
  lemma PowerStateAloneResetsState(vm: Vm, raw: Raw, host: Id, cluster: Option<Id>, now: Time)
    requires "powerState" in raw && "state" !in raw
    ensures WriteVmRowSpec(vm, raw, host, cluster, true, now).state == "Unknown"
  {
  }

  /** When a status update changes the state: exactly when it says so. */
  lemma PartialStateExactly(vm: Vm, raw: Raw, host: Id, cluster: Option<Id>, now: Time)
    ensures WriteVmRowSpec(vm, raw, host, cluster, true, now).state == vm.state
      <==> (!StateSignalled(raw)
            || ("state" in raw && (NonEmpty(raw["state"]).None? || NonEmpty(raw["state"]).value == vm.state))
            || ("state" !in raw && vm.state == "Unknown"))
  {
  }
}
