# Cache-aside shop cache, modelled in Dafny

This project models the live Redis cache logic of the hmdp shop service. The
store is an immutable map from keys to entries, and each entry may carry an
absolute expiry instant. The clock is an explicit number of seconds. Every
cache operation is a pure function that takes the store, the time and the
loader's answer. It returns the caller's result, the new store, how often
the loader was consulted, and, for the logical-expiration read, the rebuild
job it handed to the background pool.

- `Redis` (redis.dfy) models the commands the code issues: GET, SET, SET EX,
  SET NX EX, DEL, EXPIRE, LRANGE 0 -1 and RPUSH. A string and a list are
  distinct kinds. GET, LRANGE and RPUSH on a key of the other kind fail with
  WRONGTYPE; SET overwrites either kind. A stored string is kept abstract as `Text`. It is one of three
  things: a literal the code writes itself (`""` for the null marker, `"1"`
  for a lock, `"[]"`), the JSON of a value, or the JSON of a `RedisData`
  envelope `{data, expireTime}`. Blankness follows Hutool's `StrUtil.isBlank`.
- `Keys` (keys.dfy) models the key prefixes and `prefix + id` with Java's
  decimal rendering of a `Long`. It proves that two different ids never
  share a key.
- `CacheClient` (cache_client.dfy) models `set`, `setWithLogicalExpire`,
  `tryLock`, `unlock`, `queryWithPassThrough` and `queryWithLogicalExpire`.
  It also models the submitted rebuild lambda as `RunRebuild`, a separate
  sequential step.
- `ShopService` (shop_service.dfy) models `queryById` and `update`.
  `ShopTypeService` (shop_type_service.dfy) models `queryList`. `Dto`
  (dto.dfy) holds the `Result` the services return.
- `Findings` (findings.dfy) holds two defects of the code as written. For
  each one it gives the corrected behaviour and proves it.

Three behaviours of the code worth knowing:
- A malformed cached payload throws. It is not treated as a miss.
- The rebuild stores the plain value rather than an envelope (see Findings).
- The mutex-guarded blocking strategy exists only in commented-out code. The
  live code has no such strategy, so the model has none.

The source has one Redis instance. The model gives each service its own
store typed by the value it caches: `Store<Shop>` for the shop keys and
`Store<ShopType>` for the shop-type list. This loses nothing, because the
key spaces (`cache:shop:`, `lock:shop:` and `show:type:list`) are disjoint.
The exceptions both paths can raise are in `Exceptions` (exceptions.dfy).

## Model

| member | source | states |
|---|---|---|
| Redis.ToSeconds | src/main/java/com/hmdp/utils/CacheClient.java:38 | TimeUnit.toSeconds gives time, 60·time, 3600·time or 86400·time for seconds, minutes, hours and days, so it keeps the sign and never shrinks a non-negative time |
| Redis.IsBlankChar | src/main/java/com/hmdp/utils/CacheClient.java:56 | space, tab, line feed, carriage return, vertical tab and form feed are blank; digits, letters and the characters that open JSON are not |
| Redis.IsBlank | src/main/java/com/hmdp/utils/CacheClient.java:101 | the empty string is blank, and a string is blank iff its first character is blank and the rest is blank |
| Redis.BlankText | src/main/java/com/hmdp/utils/CacheClient.java:62 | the "" null marker and any string made only of ASCII whitespace (space, tab, LF, CR, VT, FF) are blank; the lock value "1", "[]" and any serialised JSON are not |
| Redis.Lookup | src/main/java/com/hmdp/utils/CacheClient.java:51 | a key is observed iff it is stored and its expiry instant, if any, is still ahead of now, and what is observed is exactly the stored value |
| Redis.Get | src/main/java/com/hmdp/utils/CacheClient.java:51 | GET is null exactly when nothing is live under the key, returns the live string otherwise, and fails only on a list |
| Redis.SetPersistent | src/main/java/com/hmdp/utils/CacheClient.java:40 | a SET without TTL is read back at every later time and changes no other key |
| Redis.SetEx | src/main/java/com/hmdp/utils/CacheClient.java:76 | SET EX fails exactly for a non-positive expiry; otherwise the string reads back until now+seconds and is absent from then on, and no other key changes |
| Redis.SetIfAbsent | src/main/java/com/hmdp/utils/CacheClient.java:143 | SET NX EX writes exactly when nothing live is stored, and then sets the given expiry |
| Redis.Delete | src/main/java/com/hmdp/utils/CacheClient.java:149 | after DEL the key reads as absent at every time and nothing else changes |
| Redis.Expire | src/main/java/com/hmdp/service/impl/ShopTypeServiceImpl.java:76 | EXPIRE reports whether the key was live and gives a live key the new expiry, keeping its value |
| Redis.Range | src/main/java/com/hmdp/service/impl/ShopTypeServiceImpl.java:37 | LRANGE 0 -1 is empty for an absent key, the whole list for a list, and WRONGTYPE exactly for a string |
| Redis.RightPushAll | src/main/java/com/hmdp/service/impl/ShopTypeServiceImpl.java:71 | RPUSH succeeds exactly for a non-empty push onto a non-string; the list then reads as the old list followed by the pushed items, and a new list has no TTL |
| CacheClient.DecodePlain | src/main/java/com/hmdp/utils/CacheClient.java:57 | toBean yields the value exactly for the JSON of a value, and otherwise throws |
| CacheClient.Set | src/main/java/com/hmdp/utils/CacheClient.java:30-32 | the JSON of the value is readable for exactly time-in-seconds and then gone; a non-positive time fails |
| CacheClient.SetWithLogicalExpire | src/main/java/com/hmdp/utils/CacheClient.java:34-41 | as written: the key holds the plain JSON of the value at every later time (no TTL) and never an envelope |
| CacheClient.TryLock | src/main/java/com/hmdp/utils/CacheClient.java:142-145 | true iff no live lock was stored; on success the lock key holds "1" expiring 10 s later, on failure nothing changes |
| CacheClient.Unlock | src/main/java/com/hmdp/utils/CacheClient.java:148-150 | after unlock any tryLock on that key succeeds, at any time; other keys are unchanged |
| CacheClient.QueryWithPassThrough | src/main/java/com/hmdp/utils/CacheClient.java:43-86 | a cached string is decoded (non-blank) or is null (blank) with no loader call and no store change; a true miss calls the loader once, caching "" for CACHE_NULL_TTL minutes on null or the row for the caller's TTL; only the key itself can change |
| CacheClient.QueryWithLogicalExpire | src/main/java/com/hmdp/utils/CacheClient.java:90-139 | absent or blank is null with no lock and no job; an envelope's payload is always returned, with no lock when expireTime > now, and when stale a job is submitted iff the lock key was free; the lock is LOCK_SHOP_KEY+id for any prefix; a plain value throws on the missing expireTime; the loader is never called |
| CacheClient.RunRebuild | src/main/java/com/hmdp/utils/CacheClient.java:124-135 | the lock is gone after the job whatever the loader did; a row is written as plain JSON, and a null row or a loader exception leaves everything but the lock unchanged |
| CacheClient.NullMarkerShieldsLoader | src/main/java/com/hmdp/utils/CacheClient.java:62-79 | after a miss that found no row, reads within CACHE_NULL_TTL minutes return null without the loader; the first read after that calls it again |
| CacheClient.PassThroughRoundTrip | src/main/java/com/hmdp/utils/CacheClient.java:51-85 | a row cached by a miss is served, without the loader and without store change, until its TTL elapses |
| CacheClient.LockSelfClears | src/main/java/com/hmdp/utils/CacheClient.java:142-145 | a lock never released blocks tryLock for exactly 10 seconds and is acquirable from then on |
| CacheClient.UnlockIdempotent | src/main/java/com/hmdp/utils/CacheClient.java:148-150 | unlocking twice is the same as unlocking once |
| CacheClient.OneRebuildPerLock | src/main/java/com/hmdp/utils/CacheClient.java:119-136 | once a stale read has submitted a job, no read of the same id under any prefix submits another while the lock lives |
| CacheClient.RebuildReopensLock | src/main/java/com/hmdp/utils/CacheClient.java:131-134 | after a job whose load returned null or threw, the next stale read of that id submits a new job |
| CacheClient.PassThroughAfterDelete | src/main/java/com/hmdp/utils/CacheClient.java:68-70 | after the key is deleted, the next pass-through read calls the loader exactly once |
| Keys.NatText | src/main/java/com/hmdp/utils/CacheClient.java:48 | a natural renders as at least one decimal digit, and as two or more exactly when it is at least 10 |
| Keys.LongText | src/main/java/com/hmdp/utils/CacheClient.java:48 | Long.toString is non-empty and starts with a minus sign exactly for negative numbers |
| Keys.KeyOf | src/main/java/com/hmdp/utils/CacheClient.java:95 | prefix + id is the prefix followed by the id's decimal rendering |
| CacheClient.LockKeyOf | src/main/java/com/hmdp/utils/CacheClient.java:119 | the lock key is LOCK_SHOP_KEY followed by the id's rendering, independent of the caller's prefix |
| Keys.NatTextInjective | src/main/java/com/hmdp/utils/CacheClient.java:48 | different naturals have different decimal renderings |
| Keys.LongTextInjective | src/main/java/com/hmdp/utils/CacheClient.java:48 | Long.toString is injective |
| Keys.KeyOfInjective | src/main/java/com/hmdp/utils/CacheClient.java:95 | two keys under one prefix coincide only for the same id |
| Keys.CacheAndLockKeysDisjoint | src/main/java/com/hmdp/utils/CacheClient.java:119 | no shop cache key equals any shop lock key |
| ShopService.QueryById | src/main/java/com/hmdp/service/impl/ShopServiceImpl.java:45-60 | exactly one logical-expiration read with CACHE_SHOP_KEY and CACHE_SHOP_TTL minutes and no other cache access; the result is fail iff that read returned null, ok(shop) iff it returned a shop, and the read's exception otherwise |
| ShopService.UpdateById | src/main/java/com/hmdp/service/impl/ShopServiceImpl.java:250 | the row with the shop's id takes the new values, and no row is created |
| ShopService.Update | src/main/java/com/hmdp/service/impl/ShopServiceImpl.java:244-254 | with no id it fails and changes neither table nor store; with an id it updates the row and deletes exactly CACHE_SHOP_KEY+id, leaving every other key, lock keys included, as it was |
| ShopService.ReadAfterUpdateFails | src/main/java/com/hmdp/service/impl/ShopServiceImpl.java:244-254 | right after an update, queryById for that id fails with no lock and no job |
| ShopService.UpdateSparesOtherShops | src/main/java/com/hmdp/service/impl/ShopServiceImpl.java:252 | an update leaves queryById of every other id answering and rebuilding exactly as before |
| ShopTypeService.InsertBySort | src/main/java/com/hmdp/service/impl/ShopTypeServiceImpl.java:53-55 | inserting into a list sorted by sort keeps it sorted and adds exactly that element |
| ShopTypeService.OrderBySort | src/main/java/com/hmdp/service/impl/ShopTypeServiceImpl.java:53-55 | the table query returns a permutation of the table sorted by ascending sort |
| ShopTypeService.EncodeAll | src/main/java/com/hmdp/service/impl/ShopTypeServiceImpl.java:63-67 | each element becomes its JSON, in order |
| ShopTypeService.DecodeAll | src/main/java/com/hmdp/service/impl/ShopTypeServiceImpl.java:42-46 | decoding succeeds iff every item is a value's JSON, and then yields the values in list order |
| ShopTypeService.DecodeEncode | src/main/java/com/hmdp/service/impl/ShopTypeServiceImpl.java:42-46 | decoding the encoded list gives back the list |
| ShopTypeService.LoadFromTable | src/main/java/com/hmdp/service/impl/ShopTypeServiceImpl.java:51-79 | on a miss: an empty table caches the string "[]" for 5 minutes and returns an empty list; a non-empty one returns the table sorted by sort and leaves exactly its JSON, in that order, as the list with a 30-day TTL |
| ShopTypeService.QueryList | src/main/java/com/hmdp/service/impl/ShopTypeServiceImpl.java:31-80 | a non-empty cached list is returned decoded, in order, without the table or a store change; an empty one goes to the table; a string under the key throws WRONGTYPE; no other key changes |
| ShopTypeService.QueryListRoundTrip | src/main/java/com/hmdp/service/impl/ShopTypeServiceImpl.java:37-79 | after a non-empty load, every call before the 30 days elapse returns the same list in the same order without the table and without store change |
| Findings.RebuiltEntryUnreadable | src/main/java/com/hmdp/utils/CacheClient.java:34-41 | as written, after a completed rebuild every logical-expiration read of that id throws on the missing expireTime |
| Findings.RebuiltShopQueryThrows | src/main/java/com/hmdp/service/impl/ShopServiceImpl.java:53-54 | as written, after a shop's rebuild queryById for it throws at every later time |
| Findings.SetWithLogicalExpireFixed | src/main/java/com/hmdp/utils/CacheClient.java:36-38 | corrected: the envelope {value, now + ttl} is what is stored, with no store TTL |
| Findings.RunRebuildFixed | src/main/java/com/hmdp/utils/CacheClient.java:124-135 | corrected rebuild: a row is stored as a fresh envelope, and the lock is released in every case, and no key other than the entry and the lock changes |
| Findings.EnvelopeRoundTrip | src/main/java/com/hmdp/utils/CacheClient.java:34-41 | with the corrected write, reading back returns the value; it is fresh (no lock, no job) before the TTL elapses and stale afterwards, when a job is submitted iff the lock is free |
| Findings.RebuiltShopServed | src/main/java/com/hmdp/service/impl/ShopServiceImpl.java:53-59 | with the corrected rebuild, queryById returns the reloaded shop, with no lock and no job, until CACHE_SHOP_TTL minutes elapse |
| Findings.EmptyMarkerBreaksNextCall | src/main/java/com/hmdp/service/impl/ShopTypeServiceImpl.java:57-60 | as written, after an empty table every call within 5 minutes throws WRONGTYPE |
| Findings.QueryListFixed | src/main/java/com/hmdp/service/impl/ShopTypeServiceImpl.java:37-60 | corrected read: the "[]" string answers an empty list without the table; any other state behaves as written |
| Findings.EmptyMarkerServed | src/main/java/com/hmdp/service/impl/ShopTypeServiceImpl.java:57-60 | with the corrected read, calls within 5 minutes of an empty load return an empty list without the table or a store change, and the first call after them queries the table again |

RedisConstants.java is not part of this model. The constants take the values
of the upstream project, which the prefix comment at CacheClient.java:47
also shows. `CACHE_SHOP_KEY` is `"cache:shop:"` and `LOCK_SHOP_KEY` is
`"lock:shop:"`. `CACHE_NULL_TTL` is 2 minutes and `CACHE_SHOP_TTL` is
30 minutes.

## Left out

- Redis as a server: the network, wire serialisation and `StringRedisTemplate` are left out. The store is a map with per-key expiry, and expired entries read as absent.
- The executor `CACHE_REBUILD_EXECUTOR` and all concurrency: a submitted job is a returned value, and running it is the separate step `RunRebuild`. Interleavings between reads and jobs are not modelled beyond sequential composition.
- The clock `LocalDateTime.now()`: it is a parameter counted in whole seconds. TimeUnit's sub-second units and its saturation at Long overflow are not modelled.
- Hutool JSON mechanics: encoding is the injective `Text` constructor. Hutool's lenient bean mapping is modelled in one place only: a plain value read as a `RedisData` gets null `data` and `expireTime`, so the logical-expiration read throws on the null `expireTime` (CacheClient.java:107-110). A literal like "1" or "[]" read as a `RedisData` is modelled as a decode exception.
- CacheClient.DecodePlain: throws `Undecodable` for an envelope or a non-blank literal read as a value. Hutool would map an envelope leniently to a value with null fields, and that lenient result is not modelled.
- The loader and the database: each is given as a value, the loader's answer (`Load`) or the table contents. MyBatis `updateById` writes only non-null fields; the model replaces the whole row. The `@Transactional` rollback of `update` is not modelled.
- `RunRebuild`: a null loaded row is modelled as a failed write, because Hutool serialises null to null and the Redis client refuses a null value. Either way the lock is released and the key is unchanged.
- ID type: the client's `ID` type parameter is modelled as an unbounded `int`, rendered into keys the way `Long.toString` renders. Its only live caller instantiates it at `Long`. The 64-bit range of `Long` and a null id in `queryById` are not modelled.
- The commented-out code in ShopServiceImpl.java (the mutex-guarded strategy, the duplicate strategies, `saveShop2Redis`) is not live, so it is not modelled.
- The login and token-refresh interceptors are HTTP middleware over request headers and thread-local user state. They do not touch the cache logic.
- ShopService.Shop: it carries only the id and one opaque column. Shop.java is not part of this model.

## Findings

| source | as written | input that shows it | evidently intended | confidence | as-written member | corrected member |
|---|---|---|---|---|---|---|
| src/main/java/com/hmdp/utils/CacheClient.java:34-41 | the `RedisData` envelope is built, but `toJsonStr(value)` is stored, so the key holds plain JSON | any stale shop whose rebuild job completes; every later `queryById` of it then dereferences a null `expireTime` (line 110) | store `toJsonStr(redisData)`, so that the rebuilt entry is an envelope that reads fresh until now + ttl | high (not executed) | Findings.RebuiltEntryUnreadable | Findings.EnvelopeRoundTrip |
| src/main/java/com/hmdp/service/impl/ShopTypeServiceImpl.java:57-60 | an empty table caches the string "[]" under the key that line 37 reads with LRANGE | an empty shop-type table; the next `queryList` within 5 minutes fails with WRONGTYPE | remember the empty result, so that calls within 5 minutes answer an empty list without querying the table | high (not executed) | Findings.EmptyMarkerBreaksNextCall | Findings.EmptyMarkerServed |

The corrected definitions (`Findings.SetWithLogicalExpireFixed`,
`Findings.RunRebuildFixed` and `Findings.QueryListFixed`) sit beside the
as-written ones. The main modules keep the code's behaviour, so their
contracts describe what the shipped code does.
