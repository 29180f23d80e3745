/** The audit trail's table: record, settle, prune (app/services/audit.py). */
module Audit {
  import opened Wrappers
  import opened Model

  function NewEvent(now: Time, action: EventAction, target: Id, host: Option<Id>, cluster: Option<Id>,
                    task: Option<Id>): Event {
    Event(now, action, target, host, cluster, task,
          if task.Some? then Pending else Settled(Succeeded), None)
  }

  /** Add one event; it starts pending exactly when it belongs to an agent task. */
  method Record(db: Database, now: Time, action: EventAction, target: Id, host: Option<Id>, cluster: Option<Id>,
                task: Option<Id>)
    modifies db`nextId, db`events
    ensures db.nextId == old(db.nextId) + 1
    ensures db.events == old(db.events)[old(db.nextId) := NewEvent(now, action, target, host, cluster, task)]
  {
    var id := db.NewId();
    db.events := db.events[id := NewEvent(now, action, target, host, cluster, task)];
  }

  function SettleOne(e: Event, ids: set<Id>, status: Status, error: Option<string>): Event {
    if e.outcome.Pending? && e.task.Some? && e.task.value in ids
    then e.(outcome := Settled(status), error := error)
    else e
  }

  /** One UPDATE over the whole table: only events still pending for those tasks change. */
  function Settle(events: map<Id, Event>, ids: set<Id>, status: Status, error: Option<string>): map<Id, Event> {
    map e | e in events :: SettleOne(events[e], ids, status, error)
  }

  const DAY: Time := 86400 * SECOND

  function Pruned(events: map<Id, Event>, retentionDays: int, now: Time): map<Id, Event> {
    if retentionDays <= 0 then events
    else map e | e in events && events[e].occurredAt >= now - retentionDays * DAY :: events[e]
  }

  /** An event goes exactly when retention is on and it is more than that many days old. */
  lemma PrunedExactly(events: map<Id, Event>, retentionDays: int, now: Time, e: Id)
    requires e in events
    ensures e in Pruned(events, retentionDays, now)
      <==> retentionDays <= 0 || now - events[e].occurredAt <= retentionDays * 86_400_000_000
    ensures e in Pruned(events, retentionDays, now) ==> Pruned(events, retentionDays, now)[e] == events[e]
  {
  }

  method PruneEvents(db: Database, retentionDays: int, now: Time) returns (pruned: nat)
    modifies db`events
    ensures db.events == Pruned(old(db.events), retentionDays, now)
    ensures pruned == |old(db.events)| - |db.events|
    ensures retentionDays <= 0 ==> db.events == old(db.events)
    ensures retentionDays > 0 ==> forall e :: e in old(db.events) ==>
      (e in db.events <==> now - old(db.events)[e].occurredAt <= retentionDays * 86_400_000_000)
  {
    pruned := 0;
    if retentionDays > 0 {
      var kept := map e | e in db.events && db.events[e].occurredAt >= now - retentionDays * DAY :: db.events[e];
      SubsetSize(kept.Keys, db.events.Keys);
      assert |kept| == |kept.Keys| && |db.events| == |db.events.Keys|;
      pruned := |db.events| - |kept|;
      db.events := kept;
    }
  }
}
