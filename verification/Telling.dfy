/** A row after a list of entries, taken in order: the one concept behind full snapshots and
    the status updates attached to responses. */
module Telling {
  import opened Wrappers
  import opened Model
  import opened VmRow
  import opened RowContents
  import opened RowContentsLaws

  /** The GUID an entry lists. */
  function ListedBy(it: Item): Option<Guid> {
    if it.Item? then GuidOf(it.raw) else None
  }

  // Who tells, in which mode, when.
  datatype Teller = Teller(host: Id, cluster: Option<Id>, partial: bool, now: Time)

  /** The row of GUID `g` after the entries that list it. */
  function Told(row: Vm, items: seq<Item>, g: Guid, who: Teller): Vm {
    if items == [] then row
    else
      var earlier, last := Told(row, items[..|items| - 1], g, who), items[|items| - 1];
      if last.Item? && ListedBy(last) == Some(g)
      then WriteVmRowSpec(earlier, last.raw, who.host, who.cluster, who.partial, who.now) else earlier
  }

  predicate Names(items: seq<Item>, g: Guid) {
    exists i :: 0 <= i < |items| && ListedBy(items[i]) == Some(g)
  }

  /** Entry `i` is the last of the first `m` that lists the GUID. */
  predicate LastFor(items: seq<Item>, m: nat, i: nat, g: Guid)
    requires m <= |items|
  {
    i < m && ListedBy(items[i]) == Some(g) && forall j :: i < j < m ==> ListedBy(items[j]) != Some(g)
  }

  lemma {:induction false} LastExists(items: seq<Item>, m: nat, g: Guid) returns (i: nat)
    requires m <= |items| && Names(items[..m], g)
    ensures LastFor(items, m, i, g)
    decreases m
  {
    var k :| 0 <= k < m && ListedBy(items[..m][k]) == Some(g);
    if ListedBy(items[m - 1]) == Some(g) {
      i := m - 1;
    } else {
      assert items[..m - 1][k] == items[k];
      i := LastExists(items, m - 1, g);
    }
  }

  lemma ToldStep(row: Vm, items: seq<Item>, last: Item, g: Guid, who: Teller)
    ensures Told(row, items + [last], g, who)
      == if last.Item? && ListedBy(last) == Some(g)
         then WriteVmRowSpec(Told(row, items, g, who), last.raw, who.host, who.cluster, who.partial, who.now)
         else Told(row, items, g, who)
  {
    assert (items + [last])[..|items|] == items;
  }

  /** A row nothing is said about stays. */
  lemma {:induction false} UnnamedStays(row: Vm, items: seq<Item>, g: Guid, who: Teller)
    requires !Names(items, g)
    ensures Told(row, items, g, who) == row
  {
    if items != [] {
      var init := items[..|items| - 1];
      assert forall i :: 0 <= i < |init| ==> init[i] == items[i];
      UnnamedStays(row, init, g, who);
    }
  }

  lemma {:induction false} TailIsSilent(row: Vm, items: seq<Item>, i: nat, g: Guid, who: Teller)
    requires LastFor(items, |items|, i, g)
    ensures Told(row, items, g, who) == Told(row, items[..i + 1], g, who)
    decreases |items|
  {
    if i + 1 == |items| {
      assert items[..i + 1] == items;
    } else {
      var init := items[..|items| - 1];
      assert init[..i + 1] == items[..i + 1] && forall j :: 0 <= j < |init| ==> init[j] == items[j];
      TailIsSilent(row, init, i, g, who);
    }
  }

  /** After the entries, the row holds what the last one about it says on top of what the
      earlier ones left. */
  lemma LastEntryHolds(row: Vm, items: seq<Item>, i: nat, g: Guid, who: Teller)
    requires LastFor(items, |items|, i, g)
    ensures items[i].Item?
    ensures Holds(Told(row, items[..i], g, who), Told(row, items, g, who), items[i].raw, who.host, who.cluster, who.partial, who.now)
  {
    TailIsSilent(row, items, i, g, who);
    assert items[..i + 1] == items[..i] + [items[i]];
    ToldStep(row, items[..i], items[i], g, who);
    WrittenRowHolds(Told(row, items[..i], g, who), items[i].raw, who.host, who.cluster, who.partial, who.now);
  }

  lemma {:induction false} ToldKeepsIdentity(row: Vm, items: seq<Item>, g: Guid, who: Teller)
    ensures var told := Told(row, items, g, who);
      && told.guid == row.guid && told.folder == row.folder && told.tags == row.tags
      && (row.host == who.host && row.cluster == who.cluster ==> told.host == row.host && told.cluster == row.cluster)
  {
    if items != [] { ToldKeepsIdentity(row, items[..|items| - 1], g, who); }
  }
}
