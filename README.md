# hmdp cache, seckill and id core in Dafny

This project models the core of the hmdp ("Heima reviews") back end. It is a
Spring service that puts Redis in front of a MySQL database. The modelled parts are:

- **CacheClient**: the cache-aside client.
  - A pass-through read stores the empty string for rows the database does not have, which protects against cache penetration.
  - A logical-expiry read serves stale data and schedules one rebuild under a mutex.
  - There are two write helpers and a `SET NX` lock.
- **ShopServiceImpl**: the shop-specific copy of those reads.
  - It adds a blocking mutex read and the logical-expiry warm-up `saveShop2Redis`.
  - `update` writes the database, then deletes the cache entry.
- **VoucherOrderServiceImpl**: the asynchronous seckill (flash-sale) pipeline.
  - Admission follows the result code of the reservation script.
  - An id is minted and the order goes into a bounded FIFO queue.
  - One consumer per start-up creates the order row under a per-user lock, with a guarded stock decrement.
- **RedisIdWorker**: builds 64-bit ids as `(now - 2024-01-01) << 32 | counter`, with one Redis counter per prefix and day.
- **FollowServiceImpl**: the follow table, with insert, remove and an existence query.
- **UserServiceImpl**: verification codes in Redis, login, find-or-create of the user, and the token hash.

`util.dfy` holds Hutool's `isBlank`, `Long.toString`, and Option and Result types.
`redis_store.dfy` holds one shared `Redis` object. It has string values,
hashes and counters, plus the expiry recorded per key. This is the part of
`StringRedisTemplate` the services use. Each service is a class whose
methods change that object and its own tables. Each method's `ensures` gives
the complete new state, case by case. The properties the source promises are
stated in two places: as lemmas about the pure functions, and as scenario
methods that chain several calls. Each key of the store holds one type of
value, and the program never reuses a key across types, so `SET NX` looks
only at the string table.

The sequential reading of concurrent code follows these rules:

- A task the source submits to a thread pool is returned as a value and run by a separate method.
- A retry loop that sleeps is given a fuel bound.
- The one background consumer of the seckill queue is a method that takes one task.

The code is modelled as written, including three behaviours the comments around them do not intend:

- `handleVoucherOrder` creates the order even when the per-user lock was not acquired.
- `createVoucherOrder` saves the order even when its one-per-user check or its stock update fails.
- That check filters `user_id` by the order's id (`VoucherOrders.DuplicateQueryMissesRepeatBuyer`).

Two points of the code are easy to misread as a blocking consumer loop:

- The order queue is an `ArrayBlockingQueue` filled with `add`. On a full queue the call throws; it neither blocks nor drops the order silently. The model returns `QueueFull` after the id has been minted.
- The consumer's `run` has no loop. It handles one order and ends.

## Model

| member | source | states |
|---|---|---|
| `Util.LookupAfterWrite` | src/main/java/com/hmdp/utils/CacheClient.java:27-41 | after SET of a key, GET of it answers the value written; after DEL it answers null; GET of every other key answers as before |
| `Util.DecimalString` | src/main/java/com/hmdp/service/impl/ShopServiceImpl.java:53 | `Long.toString` of a key id is a non-empty string that starts with '-' exactly for negative ids |
| `Util.DecimalStringInjective` | src/main/java/com/hmdp/service/impl/ShopServiceImpl.java:53 | distinct ids give distinct decimal strings, so `prefix + id` keys of distinct ids never collide |
| `Util.DecimalStringValue` | src/main/java/com/hmdp/service/impl/ShopServiceImpl.java:53 | parsing the decimal string of an id gives the id back |
| `Util.NatDigitsValue` | src/main/java/com/hmdp/service/impl/ShopServiceImpl.java:53 | reading the decimal digits of n back gives n |
| `Caching.EncodedIsPayload` | src/main/java/com/hmdp/utils/CacheClient.java:27-50 | with a faithful JSON codec, what set stores is read back as a payload, never as the null marker, and decodes to the value written |
| `Caching.NullMarkerIsBlank` | src/main/java/com/hmdp/utils/CacheClient.java:55-57 | the "" written for a missing row is read back as the null marker, never as a payload |
| `Caching.CacheClient.Set` | src/main/java/com/hmdp/utils/CacheClient.java:27-29 | the value's JSON is stored under the key with the given TTL, and nothing else changes |
| `Caching.CacheClient.SetWithLogicalExpire` | src/main/java/com/hmdp/utils/CacheClient.java:30-35 | the value is wrapped with expiry now + seconds and stored without a physical TTL |
| `Caching.CacheClient.TryLock` | src/main/java/com/hmdp/utils/CacheClient.java:105-108 | succeeds exactly when the lock key was absent, and then sets it to "1" with the lock TTL; on failure Redis is unchanged |
| `Caching.CacheClient.Unlock` | src/main/java/com/hmdp/utils/CacheClient.java:109-111 | the key is gone afterwards, whoever set it |
| `Caching.CacheClient.QueryWithPassThrough` | src/main/java/com/hmdp/utils/CacheClient.java:36-62 | a hit is decoded with no database call and Redis unchanged; the null marker gives null with no database call; a miss calls dbFallback once, returns its answer and caches it (null as "" with the null TTL) |
| `Caching.CacheClient.QueryWithLogicalExpire` | src/main/java/com/hmdp/utils/CacheClient.java:63-102 | a miss or blank gives null; a fresh entry returns its data unchanged; an expired entry returns the stale data, and a rebuild is scheduled exactly when the lock key was free, which the call then holds |
| `Caching.CacheClient.RunRebuild` | src/main/java/com/hmdp/utils/CacheClient.java:89-98 | the submitted job stores the reloaded row with a new logical expiry and releases the lock |
| `Caching.RepeatedPassThroughIsCached` | src/main/java/com/hmdp/utils/CacheClient.java:41-61 | a second pass-through read returns what the first did, without calling the database, whether or not the row exists |
| `Caching.StaleReadWhileRebuilding` | src/main/java/com/hmdp/utils/CacheClient.java:84-101 | an expired entry whose lock is held is served stale, and no second rebuild is scheduled |
| `Caching.RebuildThenRead` | src/main/java/com/hmdp/utils/CacheClient.java:63-101 | after the scheduled rebuild runs, a read before the new expiry returns the reloaded row, the lock is free and nothing is rescheduled |
| `Shops.ShopKeysSeparate` | src/main/java/com/hmdp/service/impl/ShopServiceImpl.java:51-53 | cache keys and lock keys never coincide, and each shop id has its own cache key and its own lock key |
| `Shops.ShopService.GetById` | src/main/java/com/hmdp/service/impl/ShopServiceImpl.java:80 | on a table whose rows sit under their own ids, the row getById returns carries the id it was asked for |
| `Shops.ShopService.QueryById` | src/main/java/com/hmdp/service/impl/ShopServiceImpl.java:39-48 | the logical-expiry read, answering fail("shop not found") when it yields null; an expired entry with the lock free returns the rebuild task for that id and its lock key, which the call now holds for LOCK_SHOP_TTL seconds; otherwise Redis is unchanged |
| `Shops.ShopService.QueryWithMutex` | src/main/java/com/hmdp/service/impl/ShopServiceImpl.java:50-99 | hit or null marker as in the pass-through read. On a miss with the lock free: load once, cache the row or "", release the lock. On a miss with the lock taken: retries run out and the finally block deletes the lock key anyway |
| `Shops.ShopService.LoadUnderLock` | src/main/java/com/hmdp/service/impl/ShopServiceImpl.java:80-96 | the lock holder loads the row, caches its JSON for CACHE_SHOP_TTL minutes or "" for CACHE_NULL_TTL minutes, and the finally block deletes the lock key |
| `Shops.ShopService.RetryAfterFailedLock` | src/main/java/com/hmdp/service/impl/ShopServiceImpl.java:70-96 | after a failed lock the read is retried; with the lock still taken no row is loaded, the result is null, and the finally block deletes the lock key another caller holds |
| `Shops.ShopService.QueryWithLogicalExpire` | src/main/java/com/hmdp/service/impl/ShopServiceImpl.java:101-138 | as CacheClient's read, with the rebuild task naming the shop id and its lock key |
| `Shops.ShopService.RunRebuild` | src/main/java/com/hmdp/service/impl/ShopServiceImpl.java:126-134 | the submitted job runs saveShop2Redis(id, 20), then releases the lock |
| `Shops.ShopService.QueryWithPassThrough` | src/main/java/com/hmdp/service/impl/ShopServiceImpl.java:142-166 | hit decoded, null marker gives null, a miss loads once and caches the row for CACHE_SHOP_TTL minutes or "" for CACHE_NULL_TTL minutes |
| `Shops.ShopService.TryLock` | src/main/java/com/hmdp/service/impl/ShopServiceImpl.java:167-170 | SET NX of "1" with the lock TTL; succeeds exactly when the key was absent |
| `Shops.ShopService.Unlock` | src/main/java/com/hmdp/service/impl/ShopServiceImpl.java:171-173 | the lock key is deleted |
| `Shops.ShopService.SaveShop2Redis` | src/main/java/com/hmdp/service/impl/ShopServiceImpl.java:174-181 | the current row (null if none) is stored with logical expiry now + expireTime and no physical TTL |
| `Shops.ShopService.Update` | src/main/java/com/hmdp/service/impl/ShopServiceImpl.java:185-195 | a shop without id fails with nothing changed; otherwise the row is replaced if it exists, the cache key is deleted, and the answer is ok; getById then returns the new row for that id and the same as before for every other id |
| `Shops.UpdateThenRead` | src/main/java/com/hmdp/service/impl/ShopServiceImpl.java:190-194 | after an update, a pass-through read misses, loads the database once and returns the updated row |
| `Shops.UpdateThenQueryById` | src/main/java/com/hmdp/service/impl/ShopServiceImpl.java:39-48 | after an update, queryById answers fail("shop not found") and schedules nothing until saveShop2Redis warms the entry; then it answers the updated row |
| `Shops.MutexRebuildThenHit` | src/main/java/com/hmdp/service/impl/ShopServiceImpl.java:53-89 | a mutex read on a miss with the lock free returns the database row, and the next mutex read returns the same row without the database |
| `IdGeneration.Signed64` | src/main/java/com/hmdp/utils/RedisIdWorker.java:27 | the long with given unsigned bits lies in the signed 64-bit range and has those bits |
| `IdGeneration.BitOr` | src/main/java/com/hmdp/utils/RedisIdWorker.java:27 | a bitwise or over `width` bits stays below 2^width |
| `IdGeneration.OrDisjoint` | src/main/java/com/hmdp/utils/RedisIdWorker.java:27 | or-ing a number whose low k bits are zero with one below 2^k is their sum |
| `IdGeneration.ComposeIdValue` | src/main/java/com/hmdp/utils/RedisIdWorker.java:17-27 | for a timestamp in the signed 32-bit range and a counter below 2^32, the shifted-and-or-ed id equals timestamp * 2^32 + counter |
| `IdGeneration.ComposeIdRoundTrip` | src/main/java/com/hmdp/utils/RedisIdWorker.java:17-27 | the id's high bits give back the timestamp and its low 32 bits the counter |
| `IdGeneration.ComposeIdOrder` | src/main/java/com/hmdp/utils/RedisIdWorker.java:27 | ids compare as (timestamp, counter) pairs in lexicographic order and are equal only for equal pairs |
| `IdGeneration.ComposeIdOverflows` | src/main/java/com/hmdp/utils/RedisIdWorker.java:21-27 | a timestamp of 2^31 seconds after the start shifts into the sign bit and gives a negative id |
| `IdGeneration.BeginTimestampIsStartOf2024` | src/main/java/com/hmdp/utils/RedisIdWorker.java:16 | BEGIN_TIMESTAMP is the epoch second of 2024-01-01T00:00:00 read as UTC, the value main computes at lines 30-33 |
| `IdGeneration.CounterKeyPerDay` | src/main/java/com/hmdp/utils/RedisIdWorker.java:23-25 | for one prefix, the counter key "icr:" + prefix + ":" + date differs for every date |
| `IdGeneration.RedisIdWorker.NextId` | src/main/java/com/hmdp/utils/RedisIdWorker.java:18-28 | the day's counter goes up by exactly one, other counters and keys are unchanged, and the id composes now - BEGIN_TIMESTAMP with the new count |
| `IdGeneration.ConsecutiveIds` | src/main/java/com/hmdp/utils/RedisIdWorker.java:17-27 | ids built from a non-decreasing in-range timestamp and two consecutive counters increase, with the counters and timestamps recoverable from them |
| `IdGeneration.SuccessiveIdsIncrease` | src/main/java/com/hmdp/utils/RedisIdWorker.java:18-28 | two calls on one day with a clock that does not go back give strictly increasing ids with consecutive counters that decode to their timestamps |
| `VoucherOrders.IntValue` | src/main/java/com/hmdp/service/impl/VoucherOrderServiceImpl.java:72 | `Long.intValue` keeps the low 32 bits as a signed int |
| `VoucherOrders.IntValuePeriodic` | src/main/java/com/hmdp/service/impl/VoucherOrderServiceImpl.java:72 | intValue reads two results that differ by a multiple of 2^32 as the same int |
| `VoucherOrders.RejectedIgnoresHighBits` | src/main/java/com/hmdp/service/impl/VoucherOrderServiceImpl.java:72-76 | the admission decision depends only on the low 32 bits of the script's result |
| `VoucherOrders.ScriptCodes` | src/main/java/com/hmdp/service/impl/VoucherOrderServiceImpl.java:72-75 | the script's results 0, 1 and 2 read as admitted, sold out and duplicate |
| `VoucherOrders.CountOrders` | src/main/java/com/hmdp/service/impl/VoucherOrderServiceImpl.java:140 | the count is positive exactly when a row with that user_id and voucher_id exists |
| `VoucherOrders.DuplicateQueryMissesRepeatBuyer` | src/main/java/com/hmdp/service/impl/VoucherOrderServiceImpl.java:138-144 | as written, the one-per-user query counts rows whose user_id equals the order id, so it counts 0 whenever no user id equals that order id |
| `VoucherOrders.DuplicateQueryExample` | src/main/java/com/hmdp/service/impl/VoucherOrderServiceImpl.java:138-140 | a user holding an order for the voucher is counted 0 times by the as-written query, and once by a query on the user id |
| `VoucherOrders.VoucherOrderService.constructor` | src/main/java/com/hmdp/service/impl/VoucherOrderServiceImpl.java:53-100 | after init the queue is empty and one handler is submitted and waiting |
| `VoucherOrders.VoucherOrderService.SeckillVoucher` | src/main/java/com/hmdp/service/impl/VoucherOrderServiceImpl.java:62-93 | a non-zero code refuses, with no id minted and the queue unchanged. Code 0 mints exactly one id, appends one order (that id, the caller, the voucher) to the queue tail and returns the id; on a full queue it fails after minting |
| `VoucherOrders.VoucherOrderService.AddTask` | src/main/java/com/hmdp/service/impl/VoucherOrderServiceImpl.java:88 | add appends at the tail exactly when the queue holds fewer than its capacity of 1024*1024 orders (line 53), so its length never exceeds that |
| `VoucherOrders.VoucherOrderService.RunHandler` | src/main/java/com/hmdp/service/impl/VoucherOrderServiceImpl.java:105-114 | the handler takes the head of the queue and handles that order only; on an empty queue, or after its one task, nothing happens |
| `VoucherOrders.VoucherOrderService.HandleVoucherOrder` | src/main/java/com/hmdp/service/impl/VoucherOrderServiceImpl.java:116-133 | locks "order:" + userId, creates the order whether or not the lock was acquired, and always unlocks |
| `VoucherOrders.VoucherOrderService.CreateVoucherOrder` | src/main/java/com/hmdp/service/impl/VoucherOrderServiceImpl.java:134-154 | stock drops by one exactly when it was positive (so it never goes negative), and the order is inserted in every case |
| `VoucherOrders.OnlyFirstOrderIsPersisted` | src/main/java/com/hmdp/service/impl/VoucherOrderServiceImpl.java:97-114 | of two admitted orders only the first reaches the order table; the second stays queued |
| `Follows.CountFollows` | src/main/java/com/hmdp/service/impl/FollowServiceImpl.java:45 | the count is the number of rows equal to (userId, followUserId), positive exactly when one exists |
| `Follows.RemoveFollows` | src/main/java/com/hmdp/service/impl/FollowServiceImpl.java:36-37 | the remove never adds rows; which rows it drops is stated by RemoveFollowsSpec |
| `Follows.RemoveFollowsSpec` | src/main/java/com/hmdp/service/impl/FollowServiceImpl.java:36-37 | after the remove no matching row survives, and every other row keeps its multiplicity |
| `Follows.FollowedAfterInsert` | src/main/java/com/hmdp/service/impl/FollowServiceImpl.java:30-34 | after the row is saved, the pair is followed |
| `Follows.NotFollowedAfterRemove` | src/main/java/com/hmdp/service/impl/FollowServiceImpl.java:35-38 | after the remove, the pair is not followed |
| `Follows.OtherPairsUnaffected` | src/main/java/com/hmdp/service/impl/FollowServiceImpl.java:30-38 | following or unfollowing one pair leaves the count of every other pair as it was |
| `Follows.FollowService.Follow` | src/main/java/com/hmdp/service/impl/FollowServiceImpl.java:27-40 | when isFollowed is true, one row is appended and every existing row is kept; when it is false or null, every matching row is removed; the answer is always ok |
| `Follows.FollowService.IsFollow` | src/main/java/com/hmdp/service/impl/FollowServiceImpl.java:43-46 | answers ok(true) exactly when a matching row exists, and only reads the table |
| `Follows.FollowThenUnfollow` | src/main/java/com/hmdp/service/impl/FollowServiceImpl.java:27-46 | after a follow the query answers true; after the unfollow it answers false |
| `Users.RandomNumbers` | src/main/java/com/hmdp/service/impl/UserServiceImpl.java:47 | the random string has the requested length and only decimal digits |
| `Users.FindByPhone` | src/main/java/com/hmdp/service/impl/UserServiceImpl.java:72 | finds a user with that phone exactly when one exists |
| `Users.FindByPhoneUnique` | src/main/java/com/hmdp/service/impl/UserServiceImpl.java:72 | with unique phones, the user found is the row holding that phone |
| `Users.NewUser` | src/main/java/com/hmdp/service/impl/UserServiceImpl.java:90-96 | a new user has the phone and a nickname of USER_NICK_NAME_PREFIX followed by exactly ten digits |
| `Users.DtoMapRoundTrip` | src/main/java/com/hmdp/utils/RefreshTokenInterceptor.java:28-35 | the hash login stores, read back into a UserDTO, gives the user's id, nickname and icon, with null fields still null |
| `Users.UserService.SendCode` | src/main/java/com/hmdp/service/impl/UserServiceImpl.java:41-56 | an invalid phone fails with "手机号码不合法" and Redis unchanged; otherwise a six-digit code is stored under LOGIN_CODE_KEY + phone for LOGIN_CODE_TTL minutes |
| `Users.UserService.Login` | src/main/java/com/hmdp/service/impl/UserServiceImpl.java:59-89 | an invalid phone fails with "手机号码不合法", a missing stored code or a different code with "验证码错误", each with nothing changed. On success an existing user is reused, or exactly one new user is added; a user with the phone exists; the token hash gets that user's DTO fields, and the token expires after LOGIN_USER_TTL seconds |
| `Users.UserService.CreateUserWithPhone` | src/main/java/com/hmdp/service/impl/UserServiceImpl.java:90-96 | exactly one row, the new user, is appended, and phones stay unique |
| `Users.SendCodeThenLogin` | src/main/java/com/hmdp/service/impl/UserServiceImpl.java:41-89 | the code sent to a valid phone logs it in twice; the user exists afterwards, the table gains exactly the new user's row when the phone was unknown and nothing otherwise, and the second token's hash holds that user's id as its decimal string |

## Left out

- Concurrency is not modelled. Every operation runs to completion before the next starts, and thread pools, `Thread.sleep` and the races they open are absent. A task the source submits to an executor is returned (`RebuildTask`, `ShopRebuild`) or taken from the queue by an explicit `RunHandler` call.
- Shops.ShopService.QueryWithMutex: the retry recursion after a failed lock is bounded by `retries`. Run sequentially, the lock is never released between retries, so the failed-lock path always ends with the fuel exhausted and a null result. Another thread releasing the lock is not modelled.
- Caching.CacheClient.Set, Caching.CacheClient.SetWithLogicalExpire and Shops.ShopService.SaveShop2Redis take their expiry as a natural number, whereas the source's `Long` parameters also accept negative values; no caller passes one.
- Time does not pass inside Redis. The expiry of each key is recorded in seconds, but no key ever times out. `LocalDateTime.now()` is a parameter: epoch seconds, and for the id worker also the formatted `yyyy:MM:dd` day.
- The JSON conversions of Hutool are not modelled. `JSONUtil.toJsonStr` and `toBean` are a pair of functions passed in (`Codec`). The scenario methods that need it assume the pair round-trips and never produces a blank string.
- RedisConstants and SystemConstants are not part of this model. The key prefixes and TTLs are placeholders. The proofs use only that the cache and lock prefixes differ in their first character.
- The entity and DTO classes are not part of this model: `Shop`, `User`, `UserDTO`, `VoucherOrder`, `Follow`, `RedisData`.
  - A shop is an optional id plus a column record.
  - A user has id, phone, nickname and icon.
  - A newly created user's icon is taken to be null.
- MyBatis is not modelled; the tables are plain maps or sequences. `updateById` replaces the whole row, which is simpler than MyBatis skipping null columns. `save` assigns the next id from a counter.
- `seckill.lua` is not part of this model, and its result code is a parameter of `SeckillVoucher`. So neither the Redis stock nor the order set the script keeps is modelled.
- `SimpleRedisLock` is not part of this model. Its `tryLock` verdict is a parameter, and lock calls are recorded in `lockEvents`.
- `UserHolder` is not modelled; the logged-in user is a parameter.
- `RegexUtils.isPhoneInvalid` is an abstract predicate.
- `RandomUtil.randomNumbers` draws its digits from a parameter.
- The UUID token is a parameter.
- `AopContext` proxies and `@Transactional` are not modelled. So neither the proxy field being null on the first handler run nor rollback is modelled.
- Logging has no effect in the model. Exceptions inside the handler, the `RuntimeException` wrapping and the null-unboxing failures (`result.intValue()` on a null script result) are not modelled.
- Users.UserService.Login: the duplicate-phone case of `one()` throwing is excluded: the model assumes phone numbers are unique, an invariant that login itself maintains.
- `RedissonConfig` is not part of this model. Of `RefreshTokenInterceptor` only the `fillBeanWithMap` reading of the token hash is modelled (`FillUserDto`); the request handling and the expiry refresh are not.
