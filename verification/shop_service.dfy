/** ShopServiceImpl's live cache paths: queryById reads through the
    logical-expiration strategy, and update writes the database row and then
    invalidates the cached shop. */
module ShopService {
  import opened Wrappers
  import opened Redis
  import opened Keys
  import opened Dto
  import CacheClient

  /** The shop entity; only its id matters to the cache, the other columns
      travel as one opaque name. */
  datatype Shop = Shop(id: Option<int>, name: string)

  /** The shop table, by id. */
  type ShopTable = map<int, Shop>

  const SHOP_NOT_FOUND: string := "\U{5E97}\U{94FA}\U{4E0D}\U{5B58}\U{5728}!"
  const SHOP_ID_REQUIRED: string := "\U{5E97}\U{94FA}id\U{4E0D}\U{80FD}\U{4E3A}\U{7A7A}"

  datatype QueryReply = QueryReply(response: Response<Shop>, store: Store<Shop>,
                                   job: Option<CacheClient.RebuildJob>)

  datatype UpdateReply = UpdateReply(response: Response<Shop>, store: Store<Shop>, table: ShopTable)

  /** queryById: one logical-expiration read of "cache:shop:" + id with a
      CACHE_SHOP_TTL-minute rebuild TTL; null becomes a failure, a shop
      becomes ok(shop), and an exception propagates. */
  function QueryById(st: Store<Shop>, now: int, id: int): (r: QueryReply)
    ensures var c := CacheClient.QueryWithLogicalExpire(st, now, CACHE_SHOP_KEY, id, CACHE_SHOP_TTL, Minutes);
      r.store == c.store && r.job == c.job &&
      (r.response.Fail? <==> c.outcome.ReturnedNull?) &&
      (r.response.Fail? ==> r.response.message == SHOP_NOT_FOUND) &&
      (c.outcome.Returned? ==> r.response == Success(Some(c.outcome.value))) &&
      (c.outcome.Threw? ==> r.response == Error(c.outcome.exception)) &&
      (r.response.Success? ==> c.outcome.Returned?)
    ensures r.job.Some? ==> r.job.value.key == KeyOf(CACHE_SHOP_KEY, id) && r.job.value.time == CACHE_SHOP_TTL
                            && r.job.value.unit == Minutes
  {
    var c := CacheClient.QueryWithLogicalExpire(st, now, CACHE_SHOP_KEY, id, CACHE_SHOP_TTL, Minutes);
    match c.outcome
    case ReturnedNull => QueryReply(Fail(SHOP_NOT_FOUND), c.store, c.job)
    case Returned(shop) => QueryReply(Success(Some(shop)), c.store, c.job)
    case Threw(e) => QueryReply(Error(e), c.store, c.job)
  }

  /** updateById: the row with the shop's id takes the new values; no row, no change. */
  function UpdateById(table: ShopTable, shop: Shop): (t: ShopTable)
    requires shop.id.Some?
    ensures shop.id.value in table ==> t == table[shop.id.value := shop]
    ensures shop.id.value !in table ==> t == table
    ensures t.Keys == table.Keys
  {
    if shop.id.value in table then table[shop.id.value := shop] else table
  }

  /** update: without an id it fails and touches nothing; with one it writes
      the row and then deletes exactly "cache:shop:" + id. */
  function Update(st: Store<Shop>, table: ShopTable, shop: Shop): (r: UpdateReply)
    ensures shop.id.None? ==> r == UpdateReply(Fail(SHOP_ID_REQUIRED), st, table)
    ensures shop.id.Some? ==>
      r.response == Success(None) && r.table == UpdateById(table, shop) &&
      KeyOf(CACHE_SHOP_KEY, shop.id.value) !in r.store &&
      r.store - {KeyOf(CACHE_SHOP_KEY, shop.id.value)} == st - {KeyOf(CACHE_SHOP_KEY, shop.id.value)}
    ensures forall j :: KeyOf(LOCK_SHOP_KEY, j) in st ==>
      KeyOf(LOCK_SHOP_KEY, j) in r.store && r.store[KeyOf(LOCK_SHOP_KEY, j)] == st[KeyOf(LOCK_SHOP_KEY, j)]
  {
    match shop.id
    case None => UpdateReply(Fail(SHOP_ID_REQUIRED), st, table)
    case Some(id) =>
      var table' := UpdateById(table, shop);
      var st' := Delete(st, KeyOf(CACHE_SHOP_KEY, id));
      forall j | KeyOf(LOCK_SHOP_KEY, j) in st
        ensures KeyOf(LOCK_SHOP_KEY, j) in st' && st'[KeyOf(LOCK_SHOP_KEY, j)] == st[KeyOf(LOCK_SHOP_KEY, j)]
      {
        CacheAndLockKeysDisjoint(id, j);
      }
      UpdateReply(Success(None), st', table')
  }

  /** Invalidation: right after an update, reading the same shop reports it
      missing, since the logical-expiration read never repopulates an absent
      key, and the read neither locks nor schedules a rebuild. */
  lemma ReadAfterUpdateFails(st: Store<Shop>, table: ShopTable, shop: Shop, now: int)
    requires shop.id.Some?
    ensures var u := Update(st, table, shop);
      QueryById(u.store, now, shop.id.value) == QueryReply(Fail(SHOP_NOT_FOUND), u.store, None)
  {
  }

  /** An update invalidates only its own shop: every other shop reads, and
      triggers rebuilds, exactly as it did before. */
  lemma {:induction false} UpdateSparesOtherShops(st: Store<Shop>, table: ShopTable, shop: Shop,
                                                  other: int, now: int)
    requires shop.id.Some? && other != shop.id.value
    ensures var before := QueryById(st, now, other);
      var after := QueryById(Update(st, table, shop).store, now, other);
      after.response == before.response && after.job == before.job
  {
    var key := KeyOf(CACHE_SHOP_KEY, other);
    var st' := Update(st, table, shop).store;
    if key == KeyOf(CACHE_SHOP_KEY, shop.id.value) {
      KeyOfInjective(CACHE_SHOP_KEY, other, shop.id.value);
    }
    assert key in st' <==> key in st;
    assert key in st ==> st'[key] == st[key];
    assert Get(st', now, key) == Get(st, now, key);
    var lock := CacheClient.LockKeyOf(other);
    CacheAndLockKeysDisjoint(shop.id.value, other);
    assert lock in st' <==> lock in st;
    assert lock in st ==> st'[lock] == st[lock];
    assert Lookup(st', now, lock) == Lookup(st, now, lock);
    var c := CacheClient.QueryWithLogicalExpire(st, now, CACHE_SHOP_KEY, other, CACHE_SHOP_TTL, Minutes);
    var c' := CacheClient.QueryWithLogicalExpire(st', now, CACHE_SHOP_KEY, other, CACHE_SHOP_TTL, Minutes);
    assert c'.outcome == c.outcome;
    assert c'.job == c.job;
  }
}
