/** Queueing work on a host's own agent (app/services/host_actions.py, agent_upgrade.py). */
module HostActions {
  import opened Wrappers
  import opened Model
  import opened Audit
  import opened Vms

  predicate ClusterNodeAction(kind: Kind) {
    kind.Suspend? || kind.SuspendDrain? || kind.Resume? || kind.ResumeFallback?
  }

  predicate Disruptive(kind: Kind) {
    ClusterNodeAction(kind) || kind.HostRestart?
  }

  predicate IsHostAction(kind: Kind) {
    Disruptive(kind) || kind.RefreshHardware? || kind.RefreshInventory? || kind.HostUpdateAgent?
  }

  predicate Audited(kind: Kind) {
    Disruptive(kind) || kind.HostUpdateAgent?
  }

  /** Work that must not be stacked on this one: another disruption, another upgrade. */
  predicate Excludes(a: Kind, b: Kind) {
    (Disruptive(a) && Disruptive(b)) || (a.HostUpdateAgent? && b.HostUpdateAgent?)
  }

  predicate InProgress(tasks: map<Id, Task>, h: Id, kind: Kind) {
    exists t :: t in tasks && tasks[t].host == h && tasks[t].target.OnHost? && Excludes(kind, tasks[t].kind)
             && !Terminal(tasks[t].status)
  }

  function HostRefusal(s: State, h: Id, kind: Kind): Option<Error> {
    if h !in s.hosts then Some(NotFound)
    else if !IsHostAction(kind) then Some(UnknownAction)
    else if !Online(s.hosts[h], s.cfg, s.now) then Some(HostOffline)
    else if ClusterNodeAction(kind) && !Clustered(s.hosts[h]) then Some(NotClustered)
    else if InProgress(s.tasks, h, kind) then Some(HostActionInProgress)
    else None
  }

  function EnqueueHostSpec(s: State, h: Id, kind: Kind, published: bool): Reply
    requires h in s.hosts
  {
    var t := s.nextId;
    if !published then Reply(s.(nextId := t + 1), Err(PublishFailed))
    else
      var queued := s.(nextId := t + 1, tasks := s.tasks[t := NewTask(kind, OnHost, h, h, s.now)]);
      Reply(if !Audited(kind) then queued
            else queued.(nextId := t + 2,
                         events := s.events[t + 1 := NewEvent(s.now, OfTask(kind), h, Some(h), s.hosts[h].cluster, Some(t))]),
            Ok(t))
  }

  function HostActionSpec(s: State, h: Id, kind: Kind, published: bool): Reply {
    var refusal := HostRefusal(s, h, kind);
    if refusal.Some? then Reply(s, Err(refusal.value)) else EnqueueHostSpec(s, h, kind, published)
  }

  method CheckHostAction(db: Database, ghost cache: Cache, cfg: Settings, now: Time, h: Id, kind: Kind)
    returns (refusal: Option<Error>)
    ensures refusal == HostRefusal(Snap(db, cache, cfg, now), h, kind)
  {
    if h !in db.hosts { return Some(NotFound); }
    if !IsHostAction(kind) { return Some(UnknownAction); }
    if !Online(db.hosts[h], cfg, now) { return Some(HostOffline); }
    if ClusterNodeAction(kind) && !Clustered(db.hosts[h]) { return Some(NotClustered); }
    if InProgress(db.tasks, h, kind) { return Some(HostActionInProgress); }
    return None;
  }

  method EnqueueHost(db: Database, ghost cache: Cache, cfg: Settings, now: Time, h: Id, kind: Kind, published: bool)
    returns (result: Result<Id, Error>)
    requires h in db.hosts
    modifies db`nextId, db`tasks, db`events
    ensures Reply(Snap(db, cache, cfg, now), result) == EnqueueHostSpec(old(Snap(db, cache, cfg, now)), h, kind, published)
  {
    var t := db.NewId();
    var tasks := db.tasks;
    db.tasks := db.tasks[t := NewTask(kind, OnHost, h, h, now)];
    if !published {
      db.tasks := tasks;
      return Err(PublishFailed);
    }
    if Audited(kind) {
      Record(db, now, OfTask(kind), h, Some(h), db.hosts[h].cluster, Some(t));
    }
    return Ok(t);
  }

  method RequestHostAction(db: Database, ghost cache: Cache, cfg: Settings, now: Time, h: Id, kind: Kind, published: bool)
    returns (result: Result<Id, Error>)
    modifies db`nextId, db`tasks, db`events
    ensures Reply(Snap(db, cache, cfg, now), result) == HostActionSpec(old(Snap(db, cache, cfg, now)), h, kind, published)
  {
    var refusal := CheckHostAction(db, cache, cfg, now, h, kind);
    if refusal.Some? {
      result := Err(refusal.value);
    } else {
      result := EnqueueHost(db, cache, cfg, now, h, kind, published);
    }
  }

  // What queueing host work leaves alone.
  lemma HostEnqueueFields(s: State, h: Id, kind: Kind, published: bool)
    requires h in s.hosts
    ensures var s' := EnqueueHostSpec(s, h, kind, published).state;
      && s'.cfg == s.cfg && s'.now == s.now && s'.vms == s.vms && s'.locks == s.locks && s'.overlay == s.overlay
      && s'.tasks == if published then s.tasks[s.nextId := NewTask(kind, OnHost, h, h, s.now)] else s.tasks
  {
    var t := s.nextId;
    if published {
      var queued := s.(nextId := t + 1, tasks := s.tasks[t := NewTask(kind, OnHost, h, h, s.now)]);
      var e := NewEvent(s.now, OfTask(kind), h, Some(h), s.hosts[h].cluster, Some(t));
      if Audited(kind) {
        assert EnqueueHostSpec(s, h, kind, published).state == queued.(nextId := t + 2, events := s.events[t + 1 := e]);
      } else {
        assert EnqueueHostSpec(s, h, kind, published).state == queued;
      }
    }
  }
}
