/** ShopServiceImpl: the shop-specific copy of the cache-aside reads
    (pass-through, mutex rebuild, logical expiry), the logical-expiry warm-up
    saveShop2Redis, and update-then-delete, over the tb_shop table. */
module Shops {
  import opened Util
  import opened RedisStore
  import opened RedisConstants
  import opened Caching

  /** A tb_shop row. Shop.java is not part of this model: besides the id,
      the row's columns are kept as one name-to-value record. */
  datatype Shop = Shop(id: Option<int>, columns: map<string, string>)

  function ShopKey(id: int): string { CACHE_SHOP_KEY + DecimalString(id) }

  function ShopLockKey(id: int): string { LOCK_SHOP_KEY + DecimalString(id) }

  /** Each shop has its own cache key and its own lock key, and no cache key
      is ever a lock key. */
  lemma ShopKeysSeparate(a: int, b: int)
    ensures ShopKey(a) != ShopLockKey(b)
    ensures ShopKey(a) == ShopKey(b) <==> a == b
    ensures ShopLockKey(a) == ShopLockKey(b) <==> a == b
  {
    DistinctPrefixKeys(CACHE_SHOP_KEY, LOCK_SHOP_KEY, DecimalString(a), DecimalString(b));
    SamePrefixKeys(CACHE_SHOP_KEY, DecimalString(a), DecimalString(b));
    SamePrefixKeys(LOCK_SHOP_KEY, DecimalString(a), DecimalString(b));
    if DecimalString(a) == DecimalString(b) {
      DecimalStringInjective(a, b);
    }
  }

  /** The logical-expiry rebuild submitted by queryWithLogicalExpire. */
  datatype ShopRebuild = ShopRebuild(id: int, lockKey: string)

  /** logical expiry, in seconds, that the submitted rebuild asks saveShop2Redis for */
  const REBUILD_EXPIRE_SECONDS: nat := 20

  class ShopService {
    const redis: Redis
    const json: Codec<Shop>
    const dataJson: Codec<RedisData<Shop>>
    /** tb_shop, by primary key */
    var shops: map<int, Shop>

    ghost predicate Valid()
      reads this
    {
      forall k :: k in shops ==> shops[k].id == Some(k)
    }

    constructor (redis: Redis, json: Codec<Shop>, dataJson: Codec<RedisData<Shop>>, shops: map<int, Shop>)
      requires forall k :: k in shops ==> shops[k].id == Some(k)
      ensures Valid()
      ensures this.redis == redis && this.json == json && this.dataJson == dataJson && this.shops == shops
    {
      this.redis, this.json, this.dataJson, this.shops := redis, json, dataJson, shops;
    }

    /** getById */
    function GetById(id: int): (s: Option<Shop>)
      reads this
      ensures s.Some? <==> id in shops
      ensures s.Some? ==> s.value == shops[id]
      ensures Valid() && s.Some? ==> s.value.id == Some(id)
    {
      if id in shops then Some(shops[id]) else None
    }

    /** queryById: the logical-expiry read, with "shop not found" for null. */
    method QueryById(id: int, now: int) returns (res: Result<Shop>, task: Option<ShopRebuild>)
      modifies redis
      ensures match Classify(old(Lookup(redis.strings, ShopKey(id))))
        case Miss => res == Fail("shop not found") && task.None? && unchanged(redis)
        case Blank => res == Fail("shop not found") && task.None? && unchanged(redis)
        case Payload(text) =>
          var w := dataJson.decode(text);
          && res == (if w.data.Some? then Ok(w.data.value) else Fail("shop not found"))
          && (task.Some? <==> w.expireTime <= now && ShopLockKey(id) !in old(redis.strings))
          && (task.Some? ==> task.value == ShopRebuild(id, ShopLockKey(id)))
          && (task.None? ==> unchanged(redis))
          && (task.Some? ==> && redis.strings == old(redis.strings)[ShopLockKey(id) := "1"]
                             && redis.ttl == old(redis.ttl)[ShopLockKey(id) := LOCK_SHOP_TTL]
                             && redis.hashes == old(redis.hashes) && redis.counters == old(redis.counters))
    {
      var shop;
      shop, task := QueryWithLogicalExpire(id, now);
      if shop.None? {
        return Fail("shop not found"), task;
      }
      res := Ok(shop.value);
    }

    /** queryWithMutex. The unbounded retry-after-sleep of the source is cut
        off after `retries` retries, reported by the ghost `exhausted`. As
        written, the finally block deletes the lock key on the failed-lock
        path too, so after any miss the lock key is gone. */
    method QueryWithMutex(id: int, retries: nat) returns (r: Option<Shop>, ghost loads: nat, ghost exhausted: bool)
      modifies redis
      decreases retries, 1
      ensures match Classify(old(Lookup(redis.strings, ShopKey(id))))
        case Payload(text) => r == Some(json.decode(text)) && loads == 0 && !exhausted && unchanged(redis)
        case Blank => r.None? && loads == 0 && !exhausted && unchanged(redis)
        case Miss =>
          && ShopLockKey(id) !in redis.strings
          && redis.hashes == old(redis.hashes) - {ShopLockKey(id)}
          && redis.counters == old(redis.counters) - {ShopLockKey(id)}
          && (ShopLockKey(id) !in old(redis.strings) ==>
                && loads == 1 && !exhausted && r == old(GetById(id))
                && redis.strings == old(redis.strings)[ShopKey(id) := if r.Some? then json.encode(r.value) else ""] - {ShopLockKey(id)}
                && redis.ttl == old(redis.ttl)[ShopKey(id) := Minutes(if r.Some? then CACHE_SHOP_TTL else CACHE_NULL_TTL)] - {ShopLockKey(id)})
          && (ShopLockKey(id) in old(redis.strings) ==>
                && loads == 0 && exhausted && r.None?
                && redis.strings == old(redis.strings) - {ShopLockKey(id)}
                && redis.ttl == old(redis.ttl) - {ShopLockKey(id)})
    {
      var lockKey := ShopLockKey(id);
      var shopJson := redis.Get(ShopKey(id));
      match Classify(shopJson) {
        case Payload(text) =>
          return Some(json.decode(text)), 0, false;
        case Blank =>
          return None, 0, false;
        case Miss =>
      }
      ShopKeysSeparate(id, id);
      var isLock := TryLock(lockKey);
      if !isLock {
        r, loads, exhausted := RetryAfterFailedLock(id, retries);
        return;
      }
      r := LoadUnderLock(id);
      loads, exhausted := 1, false;
      SetThenDelete(old(redis.strings), lockKey, "1", ShopKey(id), if r.Some? then json.encode(r.value) else "");
      SetThenDelete(old(redis.ttl), lockKey, LOCK_SHOP_TTL, ShopKey(id), Minutes(if r.Some? then CACHE_SHOP_TTL else CACHE_NULL_TTL));
    }

    /** The failed-lock branch of queryWithMutex: retry (after the sleep),
        then, in the finally block, delete the lock key that another caller
        holds. Run sequentially the lock stays taken, so the retries run out. */
    method RetryAfterFailedLock(id: int, retries: nat) returns (r: Option<Shop>, ghost loads: nat, ghost exhausted: bool)
      requires ShopKey(id) !in redis.strings && ShopLockKey(id) in redis.strings
      modifies redis
      decreases retries, 0
      ensures loads == 0 && exhausted && r.None?
      ensures redis.strings == old(redis.strings) - {ShopLockKey(id)} && redis.ttl == old(redis.ttl) - {ShopLockKey(id)}
      ensures redis.hashes == old(redis.hashes) - {ShopLockKey(id)} && redis.counters == old(redis.counters) - {ShopLockKey(id)}
    {
      if retries == 0 {
        r, loads, exhausted := None, 0, true;
      } else {
        assert Classify(Lookup(redis.strings, ShopKey(id))) == Miss;
        r, loads, exhausted := QueryWithMutex(id, retries - 1);
      }
      Unlock(ShopLockKey(id));
    }

    /** The lock-holder's part of queryWithMutex: load the row, cache it (or
        "" for a missing row), and release the lock in the finally block. */
    method LoadUnderLock(id: int) returns (r: Option<Shop>)
      modifies redis
      ensures r == GetById(id)
      ensures redis.strings == old(redis.strings)[ShopKey(id) := if r.Some? then json.encode(r.value) else ""] - {ShopLockKey(id)}
      ensures redis.ttl == old(redis.ttl)[ShopKey(id) := Minutes(if r.Some? then CACHE_SHOP_TTL else CACHE_NULL_TTL)] - {ShopLockKey(id)}
      ensures redis.hashes == old(redis.hashes) - {ShopLockKey(id)} && redis.counters == old(redis.counters) - {ShopLockKey(id)}
    {
      r := GetById(id);
      if r.None? {
        redis.SetEx(ShopKey(id), "", Minutes(CACHE_NULL_TTL));
      } else {
        redis.SetEx(ShopKey(id), json.encode(r.value), Minutes(CACHE_SHOP_TTL));
      }
      Unlock(ShopLockKey(id));
    }

    /** queryWithLogicalExpire at time `now`; the submitted rebuild is returned as `task`. */
    method QueryWithLogicalExpire(id: int, now: int) returns (r: Option<Shop>, task: Option<ShopRebuild>)
      modifies redis
      ensures match Classify(old(Lookup(redis.strings, ShopKey(id))))
        case Miss => r.None? && task.None? && unchanged(redis)
        case Blank => r.None? && task.None? && unchanged(redis)
        case Payload(text) =>
          var w := dataJson.decode(text);
          && r == w.data
          && (w.expireTime > now ==> task.None? && unchanged(redis))
          && (w.expireTime <= now ==>
                && (task.Some? <==> ShopLockKey(id) !in old(redis.strings))
                && (task.Some? ==> task.value == ShopRebuild(id, ShopLockKey(id)))
                && (task.None? ==> unchanged(redis))
                && (task.Some? ==> && redis.strings == old(redis.strings)[ShopLockKey(id) := "1"]
                                   && redis.ttl == old(redis.ttl)[ShopLockKey(id) := LOCK_SHOP_TTL]
                                   && redis.hashes == old(redis.hashes) && redis.counters == old(redis.counters)))
    {
      var shopJson := redis.Get(ShopKey(id));
      task := None;
      if shopJson.None? || IsBlank(shopJson.value) {
        return None, None;
      }
      var w := dataJson.decode(shopJson.value);
      r := w.data;
      if w.expireTime > now {
        return;
      }
      var lockKey := ShopLockKey(id);
      var isLock := TryLock(lockKey);
      if isLock {
        task := Some(ShopRebuild(id, lockKey));
      }
    }

    /** The submitted rebuild: saveShop2Redis(id, 20), then unlock in finally. */
    method RunRebuild(task: ShopRebuild, now: int)
      modifies redis
      ensures redis.strings == old(redis.strings)[ShopKey(task.id) := dataJson.encode(RedisData(old(GetById(task.id)), now + REBUILD_EXPIRE_SECONDS))] - {task.lockKey}
      ensures redis.ttl == old(redis.ttl) - {ShopKey(task.id), task.lockKey}
      ensures redis.hashes == old(redis.hashes) - {task.lockKey} && redis.counters == old(redis.counters) - {task.lockKey}
    {
      SaveShop2Redis(task.id, REBUILD_EXPIRE_SECONDS, now);
      Unlock(task.lockKey);
    }

    /** queryWithPassThrough over tb_shop. */
    method QueryWithPassThrough(id: int) returns (r: Option<Shop>, ghost loads: nat)
      modifies redis
      ensures match Classify(old(Lookup(redis.strings, ShopKey(id))))
        case Payload(text) => r == Some(json.decode(text)) && loads == 0 && unchanged(redis)
        case Blank => r.None? && loads == 0 && unchanged(redis)
        case Miss =>
          && loads == 1 && r == old(GetById(id))
          && redis.strings == old(redis.strings)[ShopKey(id) := if r.Some? then json.encode(r.value) else ""]
          && redis.ttl == old(redis.ttl)[ShopKey(id) := Minutes(if r.Some? then CACHE_SHOP_TTL else CACHE_NULL_TTL)]
          && redis.hashes == old(redis.hashes) && redis.counters == old(redis.counters)
    {
      var key := ShopKey(id);
      var shopJson := redis.Get(key);
      match Classify(shopJson) {
        case Payload(text) =>
          return Some(json.decode(text)), 0;
        case Blank =>
          return None, 0;
        case Miss =>
      }
      r, loads := GetById(id), 1;
      if r.None? {
        redis.SetEx(key, "", Minutes(CACHE_NULL_TTL));
        return;
      }
      redis.SetEx(key, json.encode(r.value), Minutes(CACHE_SHOP_TTL));
    }

    method TryLock(key: string) returns (ok: bool)
      modifies redis
      ensures ok <==> key !in old(redis.strings)
      ensures key in redis.strings
      ensures ok ==> redis.strings == old(redis.strings)[key := "1"] && redis.ttl == old(redis.ttl)[key := LOCK_SHOP_TTL]
      ensures ok ==> redis.hashes == old(redis.hashes) && redis.counters == old(redis.counters)
      ensures !ok ==> unchanged(redis)
    {
      ok := redis.SetIfAbsent(key, "1", LOCK_SHOP_TTL);
    }

    method Unlock(key: string)
      modifies redis
      ensures key !in redis.strings
      ensures redis.strings == old(redis.strings) - {key} && redis.ttl == old(redis.ttl) - {key}
      ensures redis.hashes == old(redis.hashes) - {key} && redis.counters == old(redis.counters) - {key}
    {
      redis.Delete(key);
    }

    /** saveShop2Redis: the current row (null if there is none) wrapped with
        expiry now + expireSeconds, stored with no physical TTL. */
    method SaveShop2Redis(id: int, expireSeconds: nat, now: int)
      modifies redis
      ensures redis.strings == old(redis.strings)[ShopKey(id) := dataJson.encode(RedisData(GetById(id), now + expireSeconds))]
      ensures redis.ttl == old(redis.ttl) - {ShopKey(id)}
      ensures redis.hashes == old(redis.hashes) && redis.counters == old(redis.counters)
    {
      var shop := GetById(id);
      redis.Set(ShopKey(id), dataJson.encode(RedisData(shop, now + expireSeconds)));
    }

    /** update: reject a row without id; otherwise write the table first
        (updateById, which changes nothing when the row does not exist) and
        then delete the cache entry. */
    method Update(shop: Shop) returns (res: Result<()>)
      requires Valid()
      modifies this, redis
      ensures Valid()
      ensures shop.id.None? ==> res == Fail("id is null") && shops == old(shops) && unchanged(redis)
      ensures shop.id.Some? ==>
        && res == Ok(())
        && shops == (if shop.id.value in old(shops) then old(shops)[shop.id.value := shop] else old(shops))
        && redis.strings == old(redis.strings) - {ShopKey(shop.id.value)}
        && redis.ttl == old(redis.ttl) - {ShopKey(shop.id.value)}
        && redis.hashes == old(redis.hashes) - {ShopKey(shop.id.value)}
        && redis.counters == old(redis.counters) - {ShopKey(shop.id.value)}
      ensures shop.id.Some? && shop.id.value in old(shops) ==> GetById(shop.id.value) == Some(shop)
      ensures forall j :: shop.id != Some(j) ==> GetById(j) == old(GetById(j))
    {
      if shop.id.None? {
        return Fail("id is null");
      }
      var id := shop.id.value;
      if id in shops {
        shops := shops[id := shop];
      }
      redis.Delete(ShopKey(id));
      res := Ok(());
    }
  }

  /** Write path then read path: after an update of an existing shop, a
      pass-through read misses, loads the database once and returns the new row. */
  method UpdateThenRead(s: ShopService, shop: Shop) returns (r: Option<Shop>, ghost loads: nat)
    requires s.Valid() && shop.id.Some? && shop.id.value in s.shops
    modifies s, s.redis
    ensures r == Some(shop) && loads == 1
  {
    var res := s.Update(shop);
    r, loads := s.QueryWithPassThrough(shop.id.value);
  }

  /** Write path then the read path the service uses: update deletes the
      entry, so queryById answers "shop not found" and schedules no rebuild
      until saveShop2Redis warms the entry again; then it answers the new row. */
  method UpdateThenQueryById(s: ShopService, shop: Shop, expireSeconds: nat, now: int)
    returns (missed: Result<Shop>, warmed: Result<Shop>, tasks: seq<Option<ShopRebuild>>)
    requires s.Valid() && Faithful(s.dataJson) && shop.id.Some? && shop.id.value in s.shops
    requires expireSeconds > 0
    modifies s, s.redis
    ensures missed == Fail("shop not found") && warmed == Ok(shop)
    ensures tasks == [None, None]
  {
    var id := shop.id.value;
    var res := s.Update(shop);
    var t1;
    missed, t1 := s.QueryById(id, now);
    s.SaveShop2Redis(id, expireSeconds, now);
    EncodedIsPayload(s.dataJson, RedisData(Some(shop), now + expireSeconds));
    var t2;
    warmed, t2 := s.QueryById(id, now);
    tasks := [t1, t2];
  }

  /** The mutex read on a miss with the lock free loads once and leaves
      the entry cached, so the next mutex read is a hit without the database. */
  method MutexRebuildThenHit(s: ShopService, id: int, retries: nat)
    returns (first: Option<Shop>, second: Option<Shop>, ghost secondLoads: nat)
    requires Faithful(s.json)
    requires ShopKey(id) !in s.redis.strings && ShopLockKey(id) !in s.redis.strings
    modifies s.redis
    ensures first == old(s.GetById(id)) && second == first && secondLoads == 0
  {
    ghost var l1, e1, e2;
    first, l1, e1 := s.QueryWithMutex(id, retries);
    ShopKeysSeparate(id, id);
    second, secondLoads, e2 := s.QueryWithMutex(id, retries);
  }
}
