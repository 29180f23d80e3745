/** The expiring store: VM locks, the state overlay and the deletion tombstones (app/cache.py).
    An entry past its expiry reads as absent. */
module CacheOps {
  import opened Wrappers
  import opened Model
  import opened TaskTimeouts

  // ---- VM lock -----------------------------------------------------------------------

  predicate LockLive(locks: map<Id, Lock>, vm: Id, now: Time) {
    vm in locks && now < locks[vm].expiresAt
  }

  predicate HeldBy(locks: map<Id, Lock>, vm: Id, task: Id, now: Time) {
    LockLive(locks, vm, now) && locks[vm].task == task
  }

  function Acquired(locks: map<Id, Lock>, vm: Id, task: Id, kind: Kind, cfg: Settings, now: Time): map<Id, Lock> {
    locks[vm := Lock(task, kind, LockExpiry(cfg, kind, now))]
  }

  function Released(locks: map<Id, Lock>, vm: Id, task: Id, now: Time): map<Id, Lock> {
    if HeldBy(locks, vm, task, now) then locks - {vm} else locks
  }

  /** Set-if-absent with a TTL. */
  method AcquireVmLock(cache: Cache, vm: Id, task: Id, kind: Kind, cfg: Settings, now: Time) returns (ok: bool)
    modifies cache`locks
    ensures ok <==> !LockLive(old(cache.locks), vm, now)
    ensures cache.locks == if ok then Acquired(old(cache.locks), vm, task, kind, cfg, now) else old(cache.locks)
  {
    ok := !(vm in cache.locks && now < cache.locks[vm].expiresAt);
    if ok {
      cache.locks := cache.locks[vm := Lock(task, kind, LockExpiry(cfg, kind, now))];
    }
  }

  /** Compare-and-delete: a late release by an old task never frees a newer one. */
  method ReleaseVmLock(cache: Cache, vm: Id, task: Id, now: Time) returns (released: bool)
    modifies cache`locks
    ensures released <==> HeldBy(old(cache.locks), vm, task, now)
    ensures cache.locks == Released(old(cache.locks), vm, task, now)
  {
    released := vm in cache.locks && now < cache.locks[vm].expiresAt && cache.locks[vm].task == task;
    if released {
      cache.locks := cache.locks - {vm};
    }
  }

  /** Administrator's force-release of one VM. */
  method ForceReleaseVmLock(cache: Cache, vm: Id)
    modifies cache`locks
    ensures cache.locks == old(cache.locks) - {vm}
  {
    cache.locks := cache.locks - {vm};
  }

  // ---- state overlay --------------------------------------------------------------------

  function Overlaid(overlay: map<Id, Cached>, vm: Id, state: string, cfg: Settings, now: Time): map<Id, Cached> {
    overlay[vm := Cached(state, now + cfg.stateTtl * SECOND)]
  }

  function LiveState(overlay: map<Id, Cached>, vm: Id, now: Time): Option<string> {
    if vm in overlay && now < overlay[vm].expiresAt && overlay[vm].state != "" then Some(overlay[vm].state) else None
  }

  method SetVmState(cache: Cache, vm: Id, state: string, cfg: Settings, now: Time)
    modifies cache`overlay
    ensures cache.overlay == Overlaid(old(cache.overlay), vm, state, cfg, now)
  {
    cache.overlay := cache.overlay[vm := Cached(state, now + cfg.stateTtl * SECOND)];
  }

  method ClearVmState(cache: Cache, vm: Id)
    modifies cache`overlay
    ensures cache.overlay == old(cache.overlay) - {vm}
  {
    cache.overlay := cache.overlay - {vm};
  }

  // ---- tombstones ------------------------------------------------------------------------

  const TOMBSTONE_TTL: Time := 900 * SECOND

  function Tombstoned(tombs: map<TombKey, Time>, host: Id, now: Time): set<Guid> {
    set k | k in tombs && k.host == host && now < tombs[k] :: k.guid
  }

  function Buried(tombs: map<TombKey, Time>, host: Id, guid: Guid, now: Time): map<TombKey, Time> {
    tombs[TombKey(host, guid) := now + TOMBSTONE_TTL]
  }

  function Unburied(tombs: map<TombKey, Time>, host: Id, guids: set<Guid>): map<TombKey, Time> {
    map k | k in tombs && !(k.host == host && k.guid in guids) :: tombs[k]
  }

  method MarkVmDeleted(cache: Cache, host: Id, guid: Guid, now: Time)
    modifies cache`tombs
    ensures cache.tombs == Buried(old(cache.tombs), host, guid, now)
  {
    cache.tombs := cache.tombs[TombKey(host, guid) := now + TOMBSTONE_TTL];
  }

  /** Drop the tombstones of `guids`, one key at a time. */
  method ClearVmsDeleted(cache: Cache, host: Id, guids: set<Guid>)
    modifies cache`tombs
    ensures cache.tombs == Unburied(old(cache.tombs), host, guids)
  {
    var left := guids;
    assert cache.tombs == Unburied(old(cache.tombs), host, guids - left);
    while left != {}
      invariant left <= guids
      invariant cache.tombs == Unburied(old(cache.tombs), host, guids - left)
      decreases left
    {
      var g :| g in left;
      cache.tombs := cache.tombs - {TombKey(host, g)};
      left := left - {g};
    }
    assert guids - left == guids;
  }
}
