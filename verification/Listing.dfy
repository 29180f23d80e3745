/** Listing VMs with a state filter (app/api/routes/vms.py, app/services/serializers.py). */
module Listing {
  import opened Wrappers
  import opened Model
  import opened CacheOps
  import opened Invariants
  import opened Rbac

  predicate HostOffline(s: State, h: Id) {
    h in s.hosts && !Online(s.hosts[h], s.cfg, s.now)
  }

  /** The state a user is shown. */
  function Displayed(s: State, v: Id): string
    requires v in s.vms
  {
    if HostOffline(s, s.vms[v].host) then "Unknown"
    else if LiveState(s.overlay, v, s.now).Some? then LiveState(s.overlay, v, s.now).value
    else s.vms[v].state
  }

  datatype Filter = Filter(host: Option<Id>, folder: Option<Id>, state: Option<string>)

  // What the WHERE clauses on host and folder keep.
  predicate InPlace(vm: Vm, f: Filter) {
    && (f.host.Some? ==> Some(vm.host) == f.host)
    && (f.folder.Some? ==> vm.folder == f.folder)
  }

  /** The VMs in place that this scope sees. */
  function Seen(s: State, scope: Scope, f: Filter): set<Id> {
    set v | v in s.vms && InPlace(s.vms[v], f) && VmVisible(scope, s.vms[v])
  }

  /** Filter the rows by their own state, then filter the result by the displayed one. */
  function ListVms(s: State, scope: Scope, f: Filter): set<Id> {
    if f.state.None? then Seen(s, scope, f)
    else set v | v in Seen(s, scope, f) && s.vms[v].state == f.state.value && Displayed(s, v) == f.state.value
  }

  /** VM `v` is shown as `state`: "Unknown" while its host is offline, then what the overlay
      says until it expires, then what the row says. */
  predicate ShownAs(s: State, v: Id, state: string)
    requires v in s.vms
  {
    var vm := s.vms[v];
    if vm.host in s.hosts && (match s.hosts[vm.host].lastSeen
                              case None => true
                              case Some(t) => t < s.now - s.cfg.offlineAfter * 1_000_000)
    then state == "Unknown"
    else if v in s.overlay && s.now < s.overlay[v].expiresAt && s.overlay[v].state != "" then state == s.overlay[v].state
    else state == vm.state
  }

  lemma ShownMeans(s: State, v: Id, state: string)
    requires v in s.vms
    ensures ShownAs(s, v, state) <==> Displayed(s, v) == state
  {
  }

  /** What the endpoint is for: the VMs the scope reaches on that host, in that folder, shown in
      that state. */
  function Wanted(s: State, scope: Scope, f: Filter): set<Id> {
    set v | v in s.vms
      && (f.host.Some? ==> s.vms[v].host == f.host.value)
      && (f.folder.Some? ==> s.vms[v].folder.Some? && s.vms[v].folder.value == f.folder.value)
      && (f.state.Some? ==> ShownAs(s, v, f.state.value))
      && (scope.all || s.vms[v].host in scope.hosts || (s.vms[v].folder.Some? && s.vms[v].folder.value in scope.folders))
  }

  lemma WantedIsSeen(s: State, scope: Scope, f: Filter)
    ensures Wanted(s, scope, f) == set v | v in Seen(s, scope, f) && (f.state.Some? ==> Displayed(s, v) == f.state.value)
  {
  }

  /** While the overlay agrees with the rows, filtering by any state but "Unknown" is exact. */
  lemma ListingIsExact(s: State, scope: Scope, f: Filter)
    requires OverlayAgrees(s) && f.state != Some("Unknown")
    ensures ListVms(s, scope, f) == Wanted(s, scope, f)
  {
    WantedIsSeen(s, scope, f);
  }

  /** Whatever the overlay holds, nothing is listed that is not shown in that state. */
  lemma ListingIsSound(s: State, scope: Scope, f: Filter)
    ensures ListVms(s, scope, f) <= Wanted(s, scope, f)
  {
    WantedIsSeen(s, scope, f);
  }

  // A VM the filter should list, were it not for its row's own state.
  predicate Missed(s: State, v: Id)
    requires v in s.vms
  {
    s.vms[v].host in s.hosts && !Online(s.hosts[s.vms[v].host], s.cfg, s.now) && s.vms[v].state != "Unknown"
  }

  /** Filtering by "Unknown" misses the VMs of offline hosts: it is exact only while each of
      them is in that state already. */
  lemma UnknownListingExactly(s: State, scope: Scope, f: Filter)
    requires OverlayAgrees(s) && f.state == Some("Unknown")
    ensures ListVms(s, scope, f) == Wanted(s, scope, f) <==> forall v :: v in Wanted(s, scope, f) ==> !Missed(s, v)
  {
    WantedIsSeen(s, scope, f);
    if v :| v in Wanted(s, scope, f) && Missed(s, v) {
      assert v !in ListVms(s, scope, f);
    }
  }
}
