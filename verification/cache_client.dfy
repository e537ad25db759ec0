/** CacheClient: the cache-aside facade over the store.  Every operation is a
    state transformer taking the store and the current time and returning the
    new store; a read also says how many times it consulted the loader and,
    for the logical-expiration strategy, which rebuild job it submitted to the
    background pool.  Running a job is a separate step, RunRebuild. */
module CacheClient {
  import opened Wrappers
  import opened Redis
  import opened Keys
  import opened Exceptions

  /** What `dbFallback.apply(id)` gives: a row, null, or an exception. */
  datatype Load<V> = Row(row: V) | NoRow | LoaderThrew

  /** A read returns a value, returns null, or throws. */
  datatype Outcome<V> = Returned(value: V) | ReturnedNull | Threw(exception: Exception)

  /** The task handed to the rebuild executor: what the submitted lambda captures. */
  datatype RebuildJob = RebuildJob(key: string, lockKey: string, id: int, time: int, unit: TimeUnit)

  datatype Reply<V> = Reply(outcome: Outcome<V>, store: Store<V>, loads: nat, job: Option<RebuildJob>)

  /** The sentinel a lock holder stores, and the lock's safety-net TTL. */
  const LOCK_VALUE: string := "1"
  const LOCK_TTL_SECONDS: int := 10

  /** The mutex of an id: always under LOCK_SHOP_KEY, whatever the caller's prefix. */
  function LockKeyOf(id: int): (k: string)
    ensures |k| > |LOCK_SHOP_KEY|
    ensures k[..|LOCK_SHOP_KEY|] == LOCK_SHOP_KEY && k[|LOCK_SHOP_KEY|..] == LongText(id)
  {
    KeyOf(LOCK_SHOP_KEY, id)
  }

  /** JSONUtil.toBean(json, type) on a non-blank string. */
  function DecodePlain<V>(t: Text<V>): (r: Outcome<V>)
    ensures r.Returned? <==> t.Plain?
    ensures r.Returned? ==> r.value == t.value
    ensures !r.Returned? ==> r == Threw(Undecodable)
  {
    match t
    case Plain(v) => Returned(v)
    case _ => Threw(Undecodable)
  }

  /** set(key, value, time, unit): the JSON of `value`, readable for the given time. */
  function Set<V>(st: Store<V>, now: int, key: string, value: V, time: int, unit: TimeUnit)
    : (r: Result<Store<V>, Fault>)
    ensures r.Ok? <==> time > 0
    ensures r.Ok? ==> r.value - {key} == st - {key}
    ensures r.Ok? ==> forall later :: now <= later < now + ToSeconds(time, unit) ==>
      Get(r.value, later, key) == Ok(Some(Plain(value)))
    ensures r.Ok? ==> forall later :: now + ToSeconds(time, unit) <= later ==>
      Get(r.value, later, key) == Ok(None)
  {
    SetEx(st, now, key, Plain(value), ToSeconds(time, unit))
  }

  /** setWithLogicalExpire as written: the envelope it builds is never used,
      and the plain JSON of `value` is stored with no TTL at all, whatever
      `now`, `time` and `unit` are. The second ensures is the "never an
      envelope" half: no later read sees a logical expiry under `key`. */
  function SetWithLogicalExpire<V>(st: Store<V>, now: int, key: string, value: V, time: int, unit: TimeUnit)
    : (st': Store<V>)
    ensures forall later :: Get(st', later, key) == Ok(Some(Plain(value)))
    ensures forall later :: !Get(st', later, key).value.value.Envelope?
    ensures st' - {key} == st - {key}
  {
    SetPersistent(st, key, Plain(value))
  }

  /** tryLock: SET NX of "1" with a 10-second TTL; true iff no live lock was stored. */
  function TryLock<V>(st: Store<V>, now: int, lockKey: string): (r: (bool, Store<V>))
    ensures r.0 <==> Lookup(st, now, lockKey).None?
    ensures r.0 ==> r.1 == st[lockKey := Entry(Str(Raw(LOCK_VALUE)), Some(now + LOCK_TTL_SECONDS))]
    ensures !r.0 ==> r.1 == st
    ensures Lookup(r.1, now, lockKey).Some?
  {
    SetIfAbsent(st, now, lockKey, Raw(LOCK_VALUE), LOCK_TTL_SECONDS)
  }

  /** unlock: delete the lock key, whoever holds it. */
  function Unlock<V>(st: Store<V>, lockKey: string): (st': Store<V>)
    ensures forall later :: TryLock(st', later, lockKey).0
    ensures st' - {lockKey} == st - {lockKey}
  {
    Delete(st, lockKey)
  }

  /** queryWithPassThrough: a non-blank string is decoded, a blank one is the
      null marker, and only a true miss consults the loader, caching either
      the row or, for null, the "" marker for CACHE_NULL_TTL minutes. */
  function QueryWithPassThrough<V>(st: Store<V>, now: int, keyPrefix: string, id: int,
                                   dbRow: Load<V>, time: int, unit: TimeUnit): (r: Reply<V>)
    ensures r.job.None? && r.loads <= 1
    ensures r.store - {KeyOf(keyPrefix, id)} == st - {KeyOf(keyPrefix, id)}
    ensures r.loads == 0 ==> r.store == st
    // a cached string: decoded when non-blank, the null marker when blank; loader untouched
    ensures var g := Get(st, now, KeyOf(keyPrefix, id));
      g.Ok? && g.value.Some? ==>
        r.loads == 0 &&
        r.outcome == (if BlankText(g.value.value) then ReturnedNull else DecodePlain(g.value.value))
    // a list under the key
    ensures Get(st, now, KeyOf(keyPrefix, id)).Err? ==>
      r.loads == 0 && r.outcome == Threw(StoreFault(WrongType))
    // a true miss: exactly one loader call, and its result decides the write
    ensures Get(st, now, KeyOf(keyPrefix, id)) == Ok(None) ==> r.loads == 1
    ensures Get(st, now, KeyOf(keyPrefix, id)) == Ok(None) ==>
      match dbRow
      case NoRow =>
        r.outcome == ReturnedNull &&
        r.store == st[KeyOf(keyPrefix, id) := Entry(Str(Raw("")), Some(now + CACHE_NULL_TTL * 60))]
      case Row(v) =>
        if time > 0 then
          r.outcome == Returned(v) &&
          r.store == st[KeyOf(keyPrefix, id) := Entry(Str(Plain(v)), Some(now + ToSeconds(time, unit)))]
        else r.outcome == Threw(StoreFault(InvalidExpireTime)) && r.store == st
      case LoaderThrew => r.outcome == Threw(LoaderFailure) && r.store == st
  {
    var key := KeyOf(keyPrefix, id);
    match Get(st, now, key)
    case Err(fault) => Reply(Threw(StoreFault(fault)), st, 0, None)
    case Ok(Some(json)) =>
      if !BlankText(json) then Reply(DecodePlain(json), st, 0, None)
      else Reply(ReturnedNull, st, 0, None)
    case Ok(None) =>
      match dbRow
      case LoaderThrew => Reply(Threw(LoaderFailure), st, 1, None)
      case NoRow =>
        (match SetEx(st, now, key, Raw(""), CACHE_NULL_TTL * 60)
         case Ok(st') => Reply(ReturnedNull, st', 1, None)
         case Err(fault) => Reply(Threw(StoreFault(fault)), st, 1, None))
      case Row(v) =>
        (match Set(st, now, key, v, time, unit)
         case Ok(st') => Reply(Returned(v), st', 1, None)
         case Err(fault) => Reply(Threw(StoreFault(fault)), st, 1, None))
  }

  /** queryWithLogicalExpire: nothing cached reads as null with no further
      action; a fresh envelope (expireTime strictly after now) is served as
      is; a stale one is served too, and a rebuild job is submitted exactly
      when this reader wins the id's lock.  The loader is never called here. */
  function QueryWithLogicalExpire<V>(st: Store<V>, now: int, keyPrefix: string, id: int,
                                     time: int, unit: TimeUnit): (r: Reply<V>)
    ensures r.loads == 0
    ensures r.job.None? ==> r.store == st
    ensures r.job.Some? ==>
      r.job.value == RebuildJob(KeyOf(keyPrefix, id), LockKeyOf(id), id, time, unit) &&
      Lookup(st, now, LockKeyOf(id)).None? &&
      r.store == st[LockKeyOf(id) := Entry(Str(Raw(LOCK_VALUE)), Some(now + LOCK_TTL_SECONDS))]
    ensures r.store - {LockKeyOf(id)} == st - {LockKeyOf(id)}
    // absent or blank: null, no lock, no job
    ensures Get(st, now, KeyOf(keyPrefix, id)) == Ok(None) ==> r == Reply(ReturnedNull, st, 0, None)
    ensures Get(st, now, KeyOf(keyPrefix, id)).Ok? && Get(st, now, KeyOf(keyPrefix, id)).value.Some?
            && BlankText(Get(st, now, KeyOf(keyPrefix, id)).value.value) ==>
      r == Reply(ReturnedNull, st, 0, None)
    // an envelope: the payload is returned, fresh or stale
    ensures var g := Get(st, now, KeyOf(keyPrefix, id));
      g.Ok? && g.value.Some? && g.value.value.Envelope? ==>
        r.outcome == Returned(g.value.value.data) &&
        (g.value.value.expireAt > now ==> r.job.None? && r.store == st) &&
        (g.value.value.expireAt <= now ==> (r.job.Some? <==> Lookup(st, now, LockKeyOf(id)).None?))
    // a list under the key, or a literal that is not an envelope's JSON
    ensures Get(st, now, KeyOf(keyPrefix, id)).Err? ==> r == Reply(Threw(StoreFault(WrongType)), st, 0, None)
    ensures var g := Get(st, now, KeyOf(keyPrefix, id));
      g.Ok? && g.value.Some? && g.value.value.Raw? && !BlankText(g.value.value) ==>
        r == Reply(Threw(Undecodable), st, 0, None)
    // a plain value has no expireTime to compare
    ensures Get(st, now, KeyOf(keyPrefix, id)).Ok? && Get(st, now, KeyOf(keyPrefix, id)).value.Some?
            && Get(st, now, KeyOf(keyPrefix, id)).value.value.Plain? ==>
      r == Reply(Threw(NullExpireTime), st, 0, None)
  {
    var key := KeyOf(keyPrefix, id);
    match Get(st, now, key)
    case Err(fault) => Reply(Threw(StoreFault(fault)), st, 0, None)
    case Ok(None) => Reply(ReturnedNull, st, 0, None)
    case Ok(Some(json)) =>
      if BlankText(json) then Reply(ReturnedNull, st, 0, None)
      else match json
        case Raw(_) => Reply(Threw(Undecodable), st, 0, None)
        case Plain(_) => Reply(Threw(NullExpireTime), st, 0, None)
        case Envelope(data, expireAt) =>
          if expireAt > now then Reply(Returned(data), st, 0, None)
          else
            var lockKey := LockKeyOf(id);
            var (isLock, st') := TryLock(st, now, lockKey);
            if isLock then Reply(Returned(data), st', 0, Some(RebuildJob(key, lockKey, id, time, unit)))
            else Reply(Returned(data), st, 0, None)
  }

  /** What a run of a job leaves behind, and whether it ended normally. */
  datatype JobRun<V> = JobRun(store: Store<V>, completed: bool)

  /** The submitted lambda, run to completion: load, write with
      setWithLogicalExpire, and release the lock in `finally` whatever
      happened.  A null row makes the write throw (the store client refuses
      a null value), so only a row reaches the store. */
  function RunRebuild<V>(st: Store<V>, now: int, job: RebuildJob, dbRow: Load<V>): (r: JobRun<V>)
    ensures forall later :: Lookup(r.store, later, job.lockKey).None?
    ensures r.completed <==> dbRow.Row?
    ensures !r.completed ==> r.store == Unlock(st, job.lockKey)
    ensures r.completed && job.key != job.lockKey ==>
      forall later :: Get(r.store, later, job.key) == Ok(Some(Plain(dbRow.row)))
    ensures forall k :: k != job.key && k != job.lockKey ==>
      (k in r.store <==> k in st) && (k in st ==> r.store[k] == st[k])
  {
    match dbRow
    case Row(v) => JobRun(Unlock(SetWithLogicalExpire(st, now, job.key, v, job.time, job.unit), job.lockKey), true)
    case NoRow => JobRun(Unlock(st, job.lockKey), false)
    case LoaderThrew => JobRun(Unlock(st, job.lockKey), false)
  }

  /** Penetration guard: once a miss has cached the null marker, reads within
      CACHE_NULL_TTL minutes return null without the loader, and the first
      read after that consults it again. */
  lemma NullMarkerShieldsLoader<V>(st: Store<V>, now: int, keyPrefix: string, id: int,
                                   time: int, unit: TimeUnit, later: int, dbRow: Load<V>)
    requires Get(st, now, KeyOf(keyPrefix, id)) == Ok(None)
    requires now <= later
    ensures var r1 := QueryWithPassThrough(st, now, keyPrefix, id, NoRow, time, unit);
      var r2 := QueryWithPassThrough(r1.store, later, keyPrefix, id, dbRow, time, unit);
      r1.loads == 1 &&
      (later < now + CACHE_NULL_TTL * 60 ==> r2.loads == 0 && r2.outcome == ReturnedNull && r2.store == r1.store) &&
      (later >= now + CACHE_NULL_TTL * 60 ==> r2.loads == 1)
  {
  }

  /** A loaded row written by a miss is served from the cache, without the
      loader, until its TTL runs out. */
  lemma PassThroughRoundTrip<V>(st: Store<V>, now: int, keyPrefix: string, id: int,
                                v: V, time: int, unit: TimeUnit, later: int, dbRow: Load<V>)
    requires Get(st, now, KeyOf(keyPrefix, id)) == Ok(None)
    requires time > 0 && now <= later < now + ToSeconds(time, unit)
    ensures var r1 := QueryWithPassThrough(st, now, keyPrefix, id, Row(v), time, unit);
      var r2 := QueryWithPassThrough(r1.store, later, keyPrefix, id, dbRow, time, unit);
      r1.outcome == Returned(v) && r2 == Reply(Returned(v), r1.store, 0, None)
  {
  }

  /** Mutex liveness: a lock nobody releases blocks other holders for exactly
      LOCK_TTL_SECONDS and can be taken again afterwards. */
  lemma LockSelfClears<V>(st: Store<V>, now: int, lockKey: string, later: int)
    requires TryLock(st, now, lockKey).0
    requires now <= later
    ensures TryLock(TryLock(st, now, lockKey).1, later, lockKey).0 <==> later >= now + LOCK_TTL_SECONDS
  {
  }

  /** unlock may be repeated: a second call changes nothing. */
  lemma UnlockIdempotent<V>(st: Store<V>, lockKey: string)
    ensures Unlock(Unlock(st, lockKey), lockKey) == Unlock(st, lockKey)
  {
  }

  /** Breakdown guard: after a stale read has submitted a rebuild, no read of
      the same id, under any prefix, submits another until the job releases
      the lock or its TTL runs out. */
  lemma OneRebuildPerLock<V>(st: Store<V>, now: int, keyPrefix: string, otherPrefix: string,
                             id: int, time: int, unit: TimeUnit, later: int)
    requires QueryWithLogicalExpire(st, now, keyPrefix, id, time, unit).job.Some?
    requires now <= later < now + LOCK_TTL_SECONDS
    ensures QueryWithLogicalExpire(QueryWithLogicalExpire(st, now, keyPrefix, id, time, unit).store,
                                   later, otherPrefix, id, time, unit).job.None?
  {
  }

  /** After a job whose load returned null or threw, the stale envelope is
      still in place and the lock is free, so the next stale read of that id
      wins the lock and submits a rebuild again.  (After a completed job the
      key holds plain JSON, which Findings.RebuiltEntryUnreadable covers.) */
  lemma RebuildReopensLock<V>(st: Store<V>, now: int, job: RebuildJob, dbRow: Load<V>,
                              later: int, keyPrefix: string, time: int, unit: TimeUnit)
    requires job.lockKey == LockKeyOf(job.id)
    requires var g := Get(RunRebuild(st, now, job, dbRow).store, later, KeyOf(keyPrefix, job.id));
      g.Ok? && g.value.Some? && g.value.value.Envelope? && g.value.value.expireAt <= later
    ensures QueryWithLogicalExpire(RunRebuild(st, now, job, dbRow).store, later, keyPrefix, job.id, time, unit).job
      == Some(RebuildJob(KeyOf(keyPrefix, job.id), job.lockKey, job.id, time, unit))
  {
  }

  /** Invalidation under the pass-through strategy: once the key is deleted,
      the next read is a miss that consults the loader exactly once. */
  lemma PassThroughAfterDelete<V>(st: Store<V>, now: int, keyPrefix: string, id: int,
                                  dbRow: Load<V>, time: int, unit: TimeUnit)
    ensures QueryWithPassThrough(Delete(st, KeyOf(keyPrefix, id)), now, keyPrefix, id, dbRow, time, unit).loads == 1
  {
  }
}
