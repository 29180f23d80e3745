/** Who sees which VM (app/services/rbac.py), and the tag counters built on it
    (app/services/tags.py). */
module Rbac {
  import opened Wrappers
  import opened Model
  import opened Invariants

  datatype Level = Global | OfCluster | OfHost | OfFolder | Unrecognised

  datatype Grant = Grant(level: Level, scope: Option<Id>)

  datatype User = User(roles: string, grants: seq<Grant>)

  datatype Scope = Scope(all: bool, clusters: set<Id>, hosts: set<Id>, folders: set<Id>)

  const EVERYTHING := Scope(true, {}, {}, {})

  // ---- roles: a comma-separated string ---------------------------------------------------

  function Split(s: string): (parts: seq<string>)
    ensures parts != []
  {
    if s == "" then [""]
    else
      var rest := Split(s[1..]);
      if s[0] == ',' then [""] + rest else [[s[0]] + rest[0]] + rest[1..]
  }

  function Join(parts: seq<string>): string {
    if parts == [] then "" else if |parts| == 1 then parts[0] else parts[0] + "," + Join(parts[1..])
  }

  lemma {:induction false} SplitNonEmpty(s: string)
    ensures forall p :: p in Split(s) ==> ',' !in p
  {
    if s != "" {
      SplitNonEmpty(s[1..]);
      var rest := Split(s[1..]);
      assert rest[0] in rest && forall p :: p in rest[1..] ==> p in rest;
    }
  }

  /** Splitting is exact: the parts are the comma-free strings that join back to the input. */
  lemma {:induction false} SplitJoins(s: string)
    ensures Join(Split(s)) == s && forall p :: p in Split(s) ==> ',' !in p
  {
    SplitNonEmpty(s);
    if s != "" {
      SplitJoins(s[1..]);
      var rest, parts := Split(s[1..]), Split(s);
      assert s == [s[0]] + s[1..];
      if s[0] == ',' {
        assert parts[1..] == rest;
      } else {
        assert parts[1..] == rest[1..];
      }
    }
  }

  predicate IsAdmin(u: User, adminRole: string) {
    u.roles != "" && adminRole in Split(u.roles)
  }

  /** Role `p` stands at `i`, between two separators or the ends. */
  predicate StandsAt(s: string, p: string, i: nat) {
    && ',' !in p && i + |p| <= |s| && s[i..i + |p|] == p
    && (i == 0 || s[i - 1] == ',') && (i + |p| == |s| || s[i + |p|] == ',')
  }

  ghost predicate Stands(s: string, p: string) {
    exists i :: StandsAt(s, p, i)
  }

  ghost predicate StandsLater(s: string, p: string) {
    exists i :: i > 0 && StandsAt(s, p, i)
  }

  lemma StandsNext(s: string, p: string, i: nat)
    requires s != ""
    ensures StandsAt(s, p, i + 1) <==> StandsAt(s[1..], p, i) && (i == 0 ==> s[0] == ',')
  {
    if i + |p| < |s| { assert s[i + 1..i + 1 + |p|] == s[1..][i..i + |p|]; }
  }

  lemma LaterIsNext(s: string, p: string)
    requires s != ""
    ensures StandsLater(s, p) <==> if s[0] == ',' then Stands(s[1..], p) else StandsLater(s[1..], p)
  {
    if i :| i > 0 && StandsAt(s, p, i) {
      StandsNext(s, p, i - 1);
      assert StandsAt(s[1..], p, i - 1);
    }
    if i: nat :| StandsAt(s[1..], p, i) && (i == 0 ==> s[0] == ',') {
      StandsNext(s, p, i);
      assert StandsAt(s, p, i + 1);
    }
  }

  lemma HeadStands(s: string, p: string)
    requires s != "" && s[0] != ','
    ensures StandsAt(s, p, 0) <==> p != "" && p[0] == s[0] && StandsAt(s[1..], p[1..], 0)
  {
    if p != "" && |p| <= |s| {
      assert p == [p[0]] + p[1..] && s[..|p|] == [s[0]] + s[1..][..|p| - 1];
    }
  }

  lemma {:induction false} SplitFinds(s: string, p: string)
    ensures p == Split(s)[0] <==> StandsAt(s, p, 0)
    ensures p in Split(s)[1..] <==> StandsLater(s, p)
  {
    if s != "" {
      var rest := Split(s[1..]);
      LaterIsNext(s, p);
      SplitFinds(s[1..], p);
      if s[0] == ',' {
        assert Split(s)[1..] == rest && rest == [rest[0]] + rest[1..];
      } else {
        HeadStands(s, p);
        SplitFinds(s[1..], if p == "" then "" else p[1..]);
        assert Split(s)[1..] == rest[1..];
      }
    }
  }

  /** A user is an administrator exactly when the role stands in the list, whole. */
  lemma IsAdminExactly(u: User, adminRole: string)
    ensures IsAdmin(u, adminRole) <==> u.roles != "" && Stands(u.roles, adminRole)
  {
    SplitFinds(u.roles, adminRole);
    var parts := Split(u.roles);
    assert parts == [parts[0]] + parts[1..];
  }

  // ---- resolving the grants ----------------------------------------------------------------

  function Granted(grants: seq<Grant>, level: Level): set<Id> {
    set g | g in grants && g.level == level && g.scope.Some? :: g.scope.value
  }

  predicate HasGlobal(grants: seq<Grant>) {
    exists g :: g in grants && g.level.Global?
  }

  function HostsIn(hosts: map<Id, Host>, clusters: set<Id>): set<Id> {
    set h | h in hosts && hosts[h].cluster.Some? && hosts[h].cluster.value in clusters
  }

  function FoldersOn(folders: map<Id, Folder>, hosts: set<Id>): set<Id> {
    set f | f in folders && folders[f].host.Some? && folders[f].host.value in hosts
  }

  function ResolvedScope(s: State, u: User, adminRole: string): Scope {
    if IsAdmin(u, adminRole) || HasGlobal(u.grants) then EVERYTHING
    else
      var hosts := Granted(u.grants, OfHost) + HostsIn(s.hosts, Granted(u.grants, OfCluster));
      Scope(false, Granted(u.grants, OfCluster), hosts, Granted(u.grants, OfFolder) + FoldersOn(s.folders, hosts))
  }

  lemma GrantedStep(grants: seq<Grant>, i: nat, level: Level)
    requires i < |grants|
    ensures Granted(grants[..i + 1], level)
         == Granted(grants[..i], level)
            + (if grants[i].level == level && grants[i].scope.Some? then {grants[i].scope.value} else {})
  {
    assert grants[..i + 1] == grants[..i] + [grants[i]];
  }

  /** Collect the grants in one pass, stopping at a global one, then widen clusters to their
      hosts and hosts to their folders. */
  method ResolveScope(db: Database, ghost cache: Cache, ghost cfg: Settings, ghost now: Time, u: User, adminRole: string)
    returns (scope: Scope)
    ensures scope == ResolvedScope(Snap(db, cache, cfg, now), u, adminRole)
  {
    if u.roles != "" && adminRole in Split(u.roles) {
      return EVERYTHING;
    }
    var clusters, hosts, folders := {}, {}, {};
    for i := 0 to |u.grants|
      invariant clusters == Granted(u.grants[..i], OfCluster)
      invariant hosts == Granted(u.grants[..i], OfHost)
      invariant folders == Granted(u.grants[..i], OfFolder)
      invariant !HasGlobal(u.grants[..i])
    {
      var g := u.grants[i];
      GrantedStep(u.grants, i, OfCluster);
      GrantedStep(u.grants, i, OfHost);
      GrantedStep(u.grants, i, OfFolder);
      assert u.grants[..i + 1] == u.grants[..i] + [g];
      if g.level == Global {
        assert g in u.grants;
        return EVERYTHING;
      }
      if g.level == OfCluster && g.scope.Some? {
        clusters := clusters + {g.scope.value};
      } else if g.level == OfHost && g.scope.Some? {
        hosts := hosts + {g.scope.value};
      } else if g.level == OfFolder && g.scope.Some? {
        folders := folders + {g.scope.value};
      }
    }
    assert u.grants[..|u.grants|] == u.grants;
    if clusters != {} {
      hosts := hosts + HostsIn(db.hosts, clusters);
    }
    if hosts != {} {
      folders := folders + FoldersOn(db.folders, hosts);
    }
    scope := Scope(false, clusters, hosts, folders);
  }

  // ---- the predicate and its SQL twin ---------------------------------------------------------

  predicate VmVisible(scope: Scope, vm: Vm) {
    scope.all || vm.host in scope.hosts || (vm.folder.Some? && vm.folder.value in scope.folders)
  }

  // SQL's third truth value.
  datatype Sql = True | False | Null

  function SqlOr(a: Sql, b: Sql): Sql {
    if a.True? || b.True? then True else if a.False? && b.False? then False else Sql.Null
  }

  /** `x IN (...)`: an empty list is false whatever x is; NULL against a list is NULL. */
  function SqlIn(x: Option<Id>, xs: set<Id>): Sql {
    if xs == {} then False
    else if x.None? then Sql.Null
    else if x.value in xs then True else False
  }

  function VisibleClause(scope: Scope, vm: Vm): Sql {
    if scope.all then True
    else if scope.hosts == {} && scope.folders == {} then False
    else SqlOr(SqlIn(Some(vm.host), scope.hosts), SqlIn(vm.folder, scope.folders))
  }

  /** A WHERE clause keeps a row exactly when the Python predicate holds, NULL folder or not. */
  lemma ClauseIsTwin(scope: Scope, vm: Vm)
    ensures VisibleClause(scope, vm).True? <==> VmVisible(scope, vm)
  {
  }

  /** Is there a grant that reaches this VM in one step? */
  ghost predicate Entitled(s: State, u: User, adminRole: string, vm: Vm) {
    || (u.roles != "" && Stands(u.roles, adminRole))
    || exists g :: g in u.grants
         && (g.level.Global?
             || (g.scope.Some?
                 && ((g.level.OfHost? && g.scope == Some(vm.host))
                     || (g.level.OfCluster? && vm.host in s.hosts && g.scope == s.hosts[vm.host].cluster)
                     || (g.level.OfFolder? && g.scope == vm.folder))))
  }

  lemma GrantOf(grants: seq<Grant>, level: Level, x: Id)
    ensures x in Granted(grants, level) <==> Grant(level, Some(x)) in grants
  {
    if x in Granted(grants, level) {
      var g :| g in grants && g.level == level && g.scope.Some? && g.scope.value == x;
      assert g == Grant(level, Some(x));
    }
  }

  /** Grants of that level and scope. */
  predicate Grants(u: User, level: Level, x: Id) {
    Grant(level, Some(x)) in u.grants
  }

  // The host is granted itself, or with its cluster.
  predicate HostGranted(s: State, u: User, h: Id) {
    Grants(u, OfHost, h) || (h in s.hosts && s.hosts[h].cluster.Some? && Grants(u, OfCluster, s.hosts[h].cluster.value))
  }

  // The folder is granted itself, or with the host it belongs to.
  predicate FolderGranted(s: State, u: User, f: Id) {
    Grants(u, OfFolder, f) || (f in s.folders && s.folders[f].host.Some? && HostGranted(s, u, s.folders[f].host.value))
  }

  /** What the resolved scope holds: everything for an administrator or a global grant, else what
      is granted, clusters with their hosts and hosts with their folders. */
  lemma ScopeExactly(s: State, u: User, adminRole: string, x: Id)
    ensures var scope := ResolvedScope(s, u, adminRole);
      && (scope.all <==> (u.roles != "" && Stands(u.roles, adminRole)) || exists g :: g in u.grants && g.level.Global?)
      && (!scope.all ==> (x in scope.clusters <==> Grants(u, OfCluster, x)))
      && (!scope.all ==> (x in scope.hosts <==> HostGranted(s, u, x)))
      && (!scope.all ==> (x in scope.folders <==> FolderGranted(s, u, x)))
  {
    IsAdminExactly(u, adminRole);
    GrantOf(u.grants, OfCluster, x);
    HostsExactly(s, u, x);
    GrantOf(u.grants, OfFolder, x);
    if x in s.folders && s.folders[x].host.Some? { HostsExactly(s, u, s.folders[x].host.value); }
  }

  lemma HostsExactly(s: State, u: User, h: Id)
    ensures h in Granted(u.grants, OfHost) + HostsIn(s.hosts, Granted(u.grants, OfCluster)) <==> HostGranted(s, u, h)
  {
    GrantOf(u.grants, OfHost, h);
    if h in s.hosts && s.hosts[h].cluster.Some? { GrantOf(u.grants, OfCluster, s.hosts[h].cluster.value); }
  }

  /** Widening hosts to their folders shows nobody anything new, because a VM is only ever in
      a folder its own host reaches. */
  lemma VisibleExactly(s: State, u: User, adminRole: string, v: Id)
    requires Sound(s) && v in s.vms
    ensures VmVisible(ResolvedScope(s, u, adminRole), s.vms[v]) <==> Entitled(s, u, adminRole, s.vms[v])
  {
    assert Holds(Places, s);
    IsAdminExactly(u, adminRole);
    var vm := s.vms[v];
    var scope := ResolvedScope(s, u, adminRole);
    if !scope.all {
      GrantOf(u.grants, OfHost, vm.host);
      if vm.folder.Some? {
        GrantOf(u.grants, OfFolder, vm.folder.value);
        if vm.folder.value in FoldersOn(s.folders, scope.hosts) {
          assert s.folders[vm.folder.value].host == Some(vm.host);
        }
      }
      if s.hosts[vm.host].cluster.Some? {
        GrantOf(u.grants, OfCluster, s.hosts[vm.host].cluster.value);
      }
    }
  }

  // ---- tag counters -------------------------------------------------------------------------------

  /** The VMs this scope sees that carry the tag. */
  function VisibleTagged(vms: map<Id, Vm>, scope: Scope, t: Id): set<Id> {
    set v | v in vms && t in vms[v].tags && VmVisible(scope, vms[v])
  }

  function CountOf(counts: map<Id, nat>, t: Id): nat {
    if t in counts then counts[t] else 0
  }

  /** list_tags: join, keep the rows the clause keeps, GROUP BY tag. */
  function GroupCounts(vms: map<Id, Vm>, scope: Scope, n: Id): map<Id, nat> {
    if n == 0 then map[]
    else
      var rest := GroupCounts(vms, scope, n - 1);
      if n - 1 in vms && VisibleClause(scope, vms[n - 1]).True?
      then map t | t in rest.Keys + vms[n - 1].tags :: CountOf(rest, t) + if t in vms[n - 1].tags then 1 else 0
      else rest
  }

  /** tag_vm_count: COUNT over the rows of one tag that the clause keeps. */
  function TagVmCount(vms: map<Id, Vm>, scope: Scope, t: Id, n: Id): nat {
    if n == 0 then 0
    else TagVmCount(vms, scope, t, n - 1)
         + if n - 1 in vms && t in vms[n - 1].tags && VisibleClause(scope, vms[n - 1]).True? then 1 else 0
  }

  function TaggedBelow(vms: map<Id, Vm>, scope: Scope, t: Id, n: Id): set<Id> {
    set v | v in VisibleTagged(vms, scope, t) && v < n
  }

  lemma {:induction false} CountsBelow(vms: map<Id, Vm>, scope: Scope, t: Id, n: Id)
    ensures CountOf(GroupCounts(vms, scope, n), t) == |TaggedBelow(vms, scope, t, n)|
    ensures TagVmCount(vms, scope, t, n) == |TaggedBelow(vms, scope, t, n)|
  {
    if n > 0 {
      CountsBelow(vms, scope, t, n - 1);
      var before := TaggedBelow(vms, scope, t, n - 1);
      if n - 1 in vms {
        ClauseIsTwin(scope, vms[n - 1]);
        if t in vms[n - 1].tags && VmVisible(scope, vms[n - 1]) {
          assert TaggedBelow(vms, scope, t, n) == before + {n - 1};
        } else {
          assert TaggedBelow(vms, scope, t, n) == before;
        }
      } else {
        assert TaggedBelow(vms, scope, t, n) == before;
      }
    }
  }

  /** Both counters say how many VMs with the tag the user can see. */
  lemma CountersAgree(s: State, scope: Scope, t: Id)
    requires FreshIds(s)
    ensures CountOf(GroupCounts(s.vms, scope, s.nextId), t) == |VisibleTagged(s.vms, scope, t)|
    ensures TagVmCount(s.vms, scope, t, s.nextId) == |VisibleTagged(s.vms, scope, t)|
  {
    CountsBelow(s.vms, scope, t, s.nextId);
    assert TaggedBelow(s.vms, scope, t, s.nextId) == VisibleTagged(s.vms, scope, t);
  }
}
