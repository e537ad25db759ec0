/** Two places where the code as written contradicts what its own comments
    and the surrounding code evidently intend (the RedisData that
    setWithLogicalExpire builds, the comment at ShopTypeServiceImpl.java:57), each shown on the as-written
    model and repaired in a corrected definition whose intended property is
    proved. */
module Findings {
  import opened Wrappers
  import opened Redis
  import opened Keys
  import opened Dto
  import opened Exceptions
  import opened CacheClient
  import ShopService
  import ShopTypeService

  // ---------------------------------------------------------------------
  // 1. setWithLogicalExpire discards the envelope it builds.

  /** As written, a completed rebuild leaves the plain JSON of the row under
      the key with no TTL, so from then on every logical-expiration read of
      that id throws on the missing expireTime instead of serving the row. */
  lemma RebuiltEntryUnreadable<V>(st: Store<V>, now: int, keyPrefix: string, id: int,
                                  time: int, unit: TimeUnit, v: V, later: int)
    requires KeyOf(keyPrefix, id) != LockKeyOf(id)
    ensures var job := RebuildJob(KeyOf(keyPrefix, id), LockKeyOf(id), id, time, unit);
      var st' := RunRebuild(st, now, job, Row(v)).store;
      QueryWithLogicalExpire(st', later, keyPrefix, id, time, unit) == Reply(Threw(NullExpireTime), st', 0, None)
  {
  }

  /** The same defect seen from the shop endpoint: once a shop's entry has
      been rebuilt, queryById for it answers with an exception at every
      later time. */
  lemma RebuiltShopQueryThrows(st: Store<ShopService.Shop>, now: int, id: int,
                               shop: ShopService.Shop, later: int)
    ensures var job := RebuildJob(KeyOf(CACHE_SHOP_KEY, id), LockKeyOf(id), id, CACHE_SHOP_TTL, Minutes);
      ShopService.QueryById(RunRebuild(st, now, job, Row(shop)).store, later, id).response
        == Error(NullExpireTime)
  {
  }

  /** setWithLogicalExpire as intended: the envelope {value, now + ttl} is
      what gets stored, still without a TTL of the store's own. */
  function SetWithLogicalExpireFixed<V>(st: Store<V>, now: int, key: string, value: V, time: int, unit: TimeUnit)
    : (st': Store<V>)
    ensures forall later :: Get(st', later, key) == Ok(Some(Envelope(value, now + ToSeconds(time, unit))))
    ensures st' - {key} == st - {key}
  {
    SetPersistent(st, key, Envelope(value, now + ToSeconds(time, unit)))
  }

  /** The rebuild job with the intended write; the lock is still released in
      every case. */
  function RunRebuildFixed<V>(st: Store<V>, now: int, job: RebuildJob, dbRow: Load<V>): (r: JobRun<V>)
    ensures forall later :: Lookup(r.store, later, job.lockKey).None?
    ensures r.completed <==> dbRow.Row?
    ensures !r.completed ==> r.store == Unlock(st, job.lockKey)
    ensures r.completed && job.key != job.lockKey ==> forall later ::
      Get(r.store, later, job.key) == Ok(Some(Envelope(dbRow.row, now + ToSeconds(job.time, job.unit))))
    ensures forall k :: k != job.key && k != job.lockKey ==>
      (k in r.store <==> k in st) && (k in st ==> r.store[k] == st[k])
  {
    match dbRow
    case Row(v) => JobRun(Unlock(SetWithLogicalExpireFixed(st, now, job.key, v, job.time, job.unit), job.lockKey), true)
    case NoRow => JobRun(Unlock(st, job.lockKey), false)
    case LoaderThrew => JobRun(Unlock(st, job.lockKey), false)
  }

  /** Envelope round trip for the intended write: reading back returns the
      value unchanged; before the TTL elapses it is fresh (no lock, no job,
      no store change), afterwards it is stale and a rebuild is submitted
      exactly when the id's lock is free. */
  lemma EnvelopeRoundTrip<V>(st: Store<V>, now: int, keyPrefix: string, id: int,
                             v: V, time: int, unit: TimeUnit, later: int)
    ensures var st' := SetWithLogicalExpireFixed(st, now, KeyOf(keyPrefix, id), v, time, unit);
      var r := QueryWithLogicalExpire(st', later, keyPrefix, id, time, unit);
      r.outcome == Returned(v) &&
      (later < now + ToSeconds(time, unit) ==> r.job.None? && r.store == st') &&
      (later >= now + ToSeconds(time, unit) ==> (r.job.Some? <==> Lookup(st', later, LockKeyOf(id)).None?))
  {
  }

  /** With the intended write, a completed rebuild is served: the shop
      endpoint returns the reloaded row, fresh, until the new logical TTL. */
  lemma RebuiltShopServed(st: Store<ShopService.Shop>, now: int, id: int,
                          shop: ShopService.Shop, later: int)
    requires now <= later < now + CACHE_SHOP_TTL * 60
    ensures var job := RebuildJob(KeyOf(CACHE_SHOP_KEY, id), LockKeyOf(id), id, CACHE_SHOP_TTL, Minutes);
      var st' := RunRebuildFixed(st, now, job, Row(shop)).store;
      ShopService.QueryById(st', later, id) == ShopService.QueryReply(Success(Some(shop)), st', None)
  {
  }

  // ---------------------------------------------------------------------
  // 2. queryList caches an empty table as a string under its list key.

  /** As written, the "[]" cached for an empty table is a string under a key
      read with LRANGE, so every call in the following 5 minutes fails with
      WRONGTYPE instead of answering an empty list. */
  lemma EmptyMarkerBreaksNextCall(st: Store<ShopTypeService.ShopType>, now: int,
                                  later: int, table': seq<ShopTypeService.ShopType>)
    requires Range(st, now, ShopTypeService.TYPE_LIST_KEY) == Ok([])
    requires now <= later < now + ShopTypeService.EMPTY_LIST_TTL_SECONDS
    ensures var r1 := ShopTypeService.QueryList(st, now, []);
      r1.response == Success(Some([])) &&
      ShopTypeService.QueryList(r1.store, later, table') ==
        ShopTypeService.ListReply(Error(StoreFault(WrongType)), r1.store, false)
  {
  }

  /** queryList as intended: the "[]" string stands for a cached empty list
      and is answered without the table; everything else goes the written way. */
  function QueryListFixed(st: Store<ShopTypeService.ShopType>, now: int, table: seq<ShopTypeService.ShopType>)
    : (r: ShopTypeService.ListReply)
    ensures Lookup(st, now, ShopTypeService.TYPE_LIST_KEY) == Some(Str(Raw(ShopTypeService.EMPTY_LIST_JSON))) ==>
      r == ShopTypeService.ListReply(Success(Some([])), st, false)
    ensures Lookup(st, now, ShopTypeService.TYPE_LIST_KEY) != Some(Str(Raw(ShopTypeService.EMPTY_LIST_JSON))) ==>
      r == ShopTypeService.QueryList(st, now, table)
  {
    if Lookup(st, now, ShopTypeService.TYPE_LIST_KEY) == Some(Str(Raw(ShopTypeService.EMPTY_LIST_JSON))) then
      ShopTypeService.ListReply(Success(Some([])), st, false)
    else
      ShopTypeService.QueryList(st, now, table)
  }

  /** With the intended read, an empty table is remembered: calls within the
      5 minutes answer an empty list without the table and leave the store
      alone, and the first call after them reads the table again. */
  lemma EmptyMarkerServed(st: Store<ShopTypeService.ShopType>, now: int,
                          later: int, table': seq<ShopTypeService.ShopType>)
    requires Range(st, now, ShopTypeService.TYPE_LIST_KEY) == Ok([])
    requires now <= later
    ensures var r1 := QueryListFixed(st, now, []);
      var r2 := QueryListFixed(r1.store, later, table');
      r1.response == Success(Some([])) && r1.queried &&
      (later < now + ShopTypeService.EMPTY_LIST_TTL_SECONDS ==>
        r2 == ShopTypeService.ListReply(Success(Some([])), r1.store, false)) &&
      (later >= now + ShopTypeService.EMPTY_LIST_TTL_SECONDS ==> r2.queried)
  {
  }
}
