/** The timeout sweeper: stale tasks, their locks, orphaned placeholders
    (_sweep_stale_tasks of app/worker/main.py). */
module Worker {
  import opened Wrappers
  import opened Model
  import opened TaskTimeouts
  import opened CacheOps
  import opened Audit

  const NO_ANSWER := "Agent did not respond in time"

  /** Open tasks past the deadline of their own kind. */
  function StaleTasks(s: State): set<Id> {
    set t | t in s.tasks && !Terminal(s.tasks[t].status) && PastDeadline(s.cfg, s.tasks[t], s.now)
  }

  function TimedOut(tasks: map<Id, Task>, stale: set<Id>, now: Time): map<Id, Task> {
    map t | t in tasks :: if t in stale
      then tasks[t].(status := Timeout, finishedAt := Some(now), error := Some(NO_ANSWER)) else tasks[t]
  }

  predicate Frees(tasks: map<Id, Task>, locks: map<Id, Lock>, t: Id, v: Id, now: Time) {
    t in tasks && tasks[t].target.OnVm? && tasks[t].targetId == v && HeldBy(locks, v, t, now)
  }

  function Freed(tasks: map<Id, Task>, locks: map<Id, Lock>, stale: set<Id>, now: Time): map<Id, Lock> {
    map v | v in locks && !(locks[v].task in stale && Frees(tasks, locks, locks[v].task, v, now)) :: locks[v]
  }

  /** GUID-less rows whose create or clone timed out or failed. */
  function Orphans(vms: map<Id, Vm>, tasks: map<Id, Task>): set<Id> {
    set v | v in vms && vms[v].guid.None?
         && exists t :: t in tasks && MakesVm(tasks[t].kind) && tasks[t].targetId == v
                     && (tasks[t].status.Timeout? || tasks[t].status.Failed?)
  }

  function SweepSpec(s: State): State {
    var stale := StaleTasks(s);
    var tasks := TimedOut(s.tasks, stale, s.now);
    s.(tasks := tasks,
       events := Settle(s.events, stale, Timeout, Some(NO_ANSWER)),
       locks := Freed(s.tasks, s.locks, stale, s.now),
       vms := s.vms - Orphans(s.vms, tasks))
  }

  /** The SQL pre-filter by the default deadline, then each kind's own deadline. */
  method CollectStale(db: Database, ghost cache: Cache, cfg: Settings, now: Time) returns (stale: seq<Id>)
    requires forall t :: t in db.tasks ==> t < db.nextId
    ensures Ids(stale) == StaleTasks(Snap(db, cache, cfg, now))
  {
    var defaultCutoff := now - cfg.taskTimeout * SECOND;
    stale := [];
    for id := 0 to db.nextId
      invariant Ids(stale) == set t | t in StaleTasks(Snap(db, cache, cfg, now)) && t < id
    {
      ghost var sofar := stale;
      if id in db.tasks && !Terminal(db.tasks[id].status) && db.tasks[id].createdAt < defaultCutoff {
        if db.tasks[id].createdAt < now - TaskTimeoutSeconds(cfg, db.tasks[id].kind) * SECOND {
          stale := stale + [id];
        }
      }
      assert Ids(stale) == Ids(sofar) + (if stale == sofar then {} else {id});
    }
  }

  function Ids(s: seq<Id>): set<Id> {
    set t | t in s
  }

  method ReleaseLocks(cache: Cache, tasks: map<Id, Task>, stale: seq<Id>, now: Time)
    requires forall t :: t in Ids(stale) ==> t in tasks
    modifies cache`locks
    ensures cache.locks == Freed(tasks, old(cache.locks), Ids(stale), now)
  {
    ghost var locks := cache.locks;
    assert cache.locks == Freed(tasks, locks, Ids(stale[..0]), now);
    for i := 0 to |stale|
      invariant cache.locks == Freed(tasks, locks, Ids(stale[..i]), now)
    {
      var t := stale[i];
      assert Ids(stale[..i + 1]) == Ids(stale[..i]) + {t};
      if tasks[t].target == OnVm {
        var _ := ReleaseVmLock(cache, tasks[t].targetId, t, now);
      }
    }
    assert stale[..|stale|] == stale;
  }

  method TimeOut(db: Database, cache: Cache, stale: seq<Id>, now: Time)
    requires forall t :: t in Ids(stale) ==> t in db.tasks
    modifies db`tasks, db`events, cache`locks
    ensures db.tasks == TimedOut(old(db.tasks), Ids(stale), now)
    ensures db.events == Settle(old(db.events), Ids(stale), Timeout, Some(NO_ANSWER))
    ensures cache.locks == Freed(old(db.tasks), old(cache.locks), Ids(stale), now)
  {
    var tasks := db.tasks;
    if stale != [] {
      db.tasks := TimedOut(tasks, Ids(stale), now);
      db.events := Settle(db.events, Ids(stale), Timeout, Some(NO_ANSWER));
      ReleaseLocks(cache, tasks, stale, now);
    } else {
      NothingStale(db.tasks, db.events, cache.locks, now);
    }
  }

  method SweepStaleTasks(db: Database, cache: Cache, cfg: Settings, now: Time)
    requires forall t :: t in db.tasks ==> t < db.nextId
    modifies db`tasks, db`events, db`vms, cache`locks
    ensures Snap(db, cache, cfg, now) == SweepSpec(old(Snap(db, cache, cfg, now)))
  {
    var stale := CollectStale(db, cache, cfg, now);
    TimeOut(db, cache, stale, now);
    db.vms := db.vms - Orphans(db.vms, db.tasks);
  }

  lemma NothingStale(tasks: map<Id, Task>, events: map<Id, Event>, locks: map<Id, Lock>, now: Time)
    ensures TimedOut(tasks, {}, now) == tasks
    ensures Settle(events, {}, Timeout, Some(NO_ANSWER)) == events
    ensures Freed(tasks, locks, {}, now) == locks
  {
  }
}
