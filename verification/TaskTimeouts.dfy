/** Per-kind task deadlines, shared by the sweeper and the lock TTL (app/task_timeouts.py). */
module TaskTimeouts {
  import opened Model

  function LongTimeout(kind: Kind): nat {
    match kind
    case VmShutdown => 900
    case VmCreate | VmMove | VmRename | VmExportTemplate
       | VmBatchStart | VmBatchStop | VmClone | VmEdit => 2100
    case HostUpdateAgent => 1800
    case _ => 0
  }

  function TaskTimeoutSeconds(cfg: Settings, kind: Kind): (s: nat)
    ensures s >= cfg.taskTimeout
  {
    if LongTimeout(kind) > cfg.taskTimeout then LongTimeout(kind) else cfg.taskTimeout
  }

  function LockTtl(cfg: Settings, kind: Kind): nat {
    TaskTimeoutSeconds(cfg, kind) + 60
  }

  function LockExpiry(cfg: Settings, kind: Kind, now: Time): Time {
    now + LockTtl(cfg, kind) * SECOND
  }

  /** The first instant at which a task is no longer within its deadline is strictly later. */
  function Deadline(cfg: Settings, t: Task): Time {
    t.createdAt + TaskTimeoutSeconds(cfg, t.kind) * SECOND
  }

  predicate PastDeadline(cfg: Settings, t: Task, now: Time) {
    t.createdAt < now - TaskTimeoutSeconds(cfg, t.kind) * SECOND
  }
}
