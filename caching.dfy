/** The generic cache-aside client (CacheClient): writes with a physical TTL
    or a logical expiry, a pass-through read that caches absence as "", and a
    logical-expiry read that serves stale data and hands back a rebuild task. */
module Caching {
  import opened Util
  import opened RedisStore
  import opened RedisConstants

  /** Hutool's JSON conversion for one Java type: toJsonStr and toBean. */
  datatype Codec<!T> = Codec(encode: T -> string, decode: string -> T)

  /** What the cache relies on from JSON: decoding an encoding gives the value
      back, and an encoding is never blank (so it cannot pass for the null marker). */
  ghost predicate Faithful<T(!new)>(c: Codec<T>)
  {
    forall x: T :: c.decode(c.encode(x)) == x && !IsBlank(c.encode(x))
  }

  /** RedisData: a payload (null when the database had no row) with its logical expiry, in seconds. */
  datatype RedisData<T> = RedisData(data: Option<T>, expireTime: int)

  /** The three things a GET can find: nothing, a blank string (the cached
      "no such row" marker), or a payload. */
  datatype Cached = Miss | Blank | Payload(text: string)

  /** The isNotBlank / != null tests of the read paths. */
  function Classify(v: Option<string>): (c: Cached)
    ensures c.Miss? <==> v.None?
    ensures c.Blank? <==> v.Some? && IsBlank(v.value)
    ensures c.Payload? <==> v.Some? && !IsBlank(v.value)
    ensures c.Payload? ==> c.text == v.value
  {
    match v
    case None => Miss
    case Some(s) => if IsBlank(s) then Blank else Payload(s)
  }

  /** The null marker written on a database miss is read back as Blank, never as a payload. */
  lemma NullMarkerIsBlank()
    ensures Classify(Some("")) == Blank
  {
  }

  /** With a faithful codec, whatever set stored is read back as a payload
      (never as the null marker) and decodes to the value written. */
  lemma EncodedIsPayload<T(!new)>(json: Codec<T>, x: T)
    requires Faithful(json)
    ensures Classify(Some(json.encode(x))) == Payload(json.encode(x))
    ensures json.decode(Classify(Some(json.encode(x))).text) == x
  {
  }

  /** The cache-rebuild job that queryWithLogicalExpire submits to its thread
      pool, as a value: run it later with CacheClient.RunRebuild. */
  datatype RebuildTask<R> = RebuildTask(key: string, lockKey: string, id: string, seconds: nat,
                                        dbFallback: string -> Option<R>)

  class CacheClient {
    const redis: Redis

    constructor (redis: Redis)
      ensures this.redis == redis
    {
      this.redis := redis;
    }

    /** set: the value's JSON under key, expiring after the given seconds. */
    method Set<R>(key: string, value: R, json: Codec<R>, seconds: nat)
      modifies redis
      ensures redis.strings == old(redis.strings)[key := json.encode(value)]
      ensures redis.ttl == old(redis.ttl)[key := seconds]
      ensures redis.hashes == old(redis.hashes) && redis.counters == old(redis.counters)
    {
      redis.SetEx(key, json.encode(value), seconds);
    }

    /** setWithLogicalExpire: the value wrapped with expiry now + seconds, and no physical TTL. */
    method SetWithLogicalExpire<R>(key: string, value: Option<R>, json: Codec<RedisData<R>>, seconds: nat, now: int)
      modifies redis
      ensures redis.strings == old(redis.strings)[key := json.encode(RedisData(value, now + seconds))]
      ensures redis.ttl == old(redis.ttl) - {key}
      ensures redis.hashes == old(redis.hashes) && redis.counters == old(redis.counters)
    {
      redis.Set(key, json.encode(RedisData(value, now + seconds)));
    }

    /** tryLock: SET NX with the lock TTL; true exactly when the key was absent. */
    method TryLock(key: string) returns (ok: bool)
      modifies redis
      ensures ok <==> key !in old(redis.strings)
      ensures key in redis.strings
      ensures ok ==> redis.strings == old(redis.strings)[key := "1"] && redis.ttl == old(redis.ttl)[key := LOCK_SHOP_TTL]
      ensures ok ==> redis.hashes == old(redis.hashes) && redis.counters == old(redis.counters)
      ensures !ok ==> unchanged(redis)
    {
      ok := redis.SetIfAbsent(key, "1", LOCK_SHOP_TTL);
    }

    /** unlock: deletes the key, whoever set it. */
    method Unlock(key: string)
      modifies redis
      ensures key !in redis.strings
      ensures redis.strings == old(redis.strings) - {key} && redis.ttl == old(redis.ttl) - {key}
      ensures redis.hashes == old(redis.hashes) - {key} && redis.counters == old(redis.counters) - {key}
    {
      redis.Delete(key);
    }

    /** queryWithPassThrough. `loads` counts the calls of dbFallback. */
    method QueryWithPassThrough<R>(keyPrefix: string, id: string, json: Codec<R>,
                                   dbFallback: string -> Option<R>, seconds: nat)
      returns (r: Option<R>, ghost loads: nat)
      modifies redis
      ensures match Classify(old(Lookup(redis.strings, keyPrefix + id)))
        case Payload(text) => r == Some(json.decode(text)) && loads == 0 && unchanged(redis)
        case Blank => r == None && loads == 0 && unchanged(redis)
        case Miss =>
          && loads == 1 && r == dbFallback(id)
          && redis.strings == old(redis.strings)[keyPrefix + id := if r.Some? then json.encode(r.value) else ""]
          && redis.ttl == old(redis.ttl)[keyPrefix + id := if r.Some? then seconds else Minutes(CACHE_NULL_TTL)]
          && redis.hashes == old(redis.hashes) && redis.counters == old(redis.counters)
    {
      var key := keyPrefix + id;
      var text := redis.Get(key);
      match Classify(text) {
        case Payload(t) =>
          r, loads := Some(json.decode(t)), 0;
        case Blank =>
          r, loads := None, 0;
        case Miss =>
          r, loads := dbFallback(id), 1;
          if r.None? {
            redis.SetEx(key, "", Minutes(CACHE_NULL_TTL));
          } else {
            Set(key, r.value, json, seconds);
          }
      }
    }

    /** queryWithLogicalExpire at time `now`. A rebuild that the source would
        submit to its pool is returned as `task`; the lock it took stays set
        until the rebuild runs. */
    method QueryWithLogicalExpire<R>(keyPrefix: string, id: string, json: Codec<RedisData<R>>,
                                     dbFallback: string -> Option<R>, seconds: nat, now: int)
      returns (r: Option<R>, task: Option<RebuildTask<R>>)
      modifies redis
      ensures match Classify(old(Lookup(redis.strings, keyPrefix + id)))
        case Miss => r.None? && task.None? && unchanged(redis)
        case Blank => r.None? && task.None? && unchanged(redis)
        case Payload(text) =>
          var w := json.decode(text);
          && r == w.data
          && (w.expireTime > now ==> task.None? && unchanged(redis))
          && (w.expireTime <= now ==>
                && (task.Some? <==> LOCK_SHOP_KEY + id !in old(redis.strings))
                && (task.Some? ==> task.value.key == keyPrefix + id && task.value.lockKey == LOCK_SHOP_KEY + id
                                   && task.value.id == id && task.value.seconds == seconds
                                   && task.value.dbFallback == dbFallback)
                && (task.None? ==> unchanged(redis))
                && (task.Some? ==> && redis.strings == old(redis.strings)[LOCK_SHOP_KEY + id := "1"]
                                   && redis.ttl == old(redis.ttl)[LOCK_SHOP_KEY + id := LOCK_SHOP_TTL]
                                   && redis.hashes == old(redis.hashes) && redis.counters == old(redis.counters)))
    {
      var key := keyPrefix + id;
      var text := redis.Get(key);
      task := None;
      if text.None? || IsBlank(text.value) {
        return None, None;
      }
      var w := json.decode(text.value);
      r := w.data;
      if w.expireTime > now {
        return;
      }
      var lockKey := LOCK_SHOP_KEY + id;
      var isLock := TryLock(lockKey);
      if isLock {
        task := Some(RebuildTask(key, lockKey, id, seconds, dbFallback));
      }
    }

    /** The submitted rebuild: reload, rewrite with a fresh logical expiry, and
        release the lock in the finally block. */
    method RunRebuild<R>(task: RebuildTask<R>, json: Codec<RedisData<R>>, now: int)
      modifies redis
      ensures redis.strings == old(redis.strings)[task.key := json.encode(RedisData(task.dbFallback(task.id), now + task.seconds))] - {task.lockKey}
      ensures redis.ttl == old(redis.ttl) - {task.key, task.lockKey}
      ensures redis.hashes == old(redis.hashes) - {task.lockKey} && redis.counters == old(redis.counters) - {task.lockKey}
    {
      var r1 := task.dbFallback(task.id);
      SetWithLogicalExpire(task.key, r1, json, task.seconds, now);
      Unlock(task.lockKey);
    }
  }

  /** Anti-penetration: right after a pass-through read, the same read is
      answered from the cache with the same result and without the database,
      whether the row exists or not. */
  method RepeatedPassThroughIsCached<R(!new)>(c: CacheClient, keyPrefix: string, id: string, json: Codec<R>,
                                             dbFallback: string -> Option<R>, seconds: nat)
    returns (first: Option<R>, second: Option<R>, ghost secondLoads: nat)
    requires Faithful(json)
    modifies c.redis
    ensures second == first && secondLoads == 0
  {
    ghost var l1;
    first, l1 := c.QueryWithPassThrough(keyPrefix, id, json, dbFallback, seconds);
    second, secondLoads := c.QueryWithPassThrough(keyPrefix, id, json, dbFallback, seconds);
  }

  /** Anti-breakdown with logical expiry: an expired entry whose lock is already
      held is served stale and schedules no second rebuild. */
  method StaleReadWhileRebuilding<R>(c: CacheClient, keyPrefix: string, id: string, json: Codec<RedisData<R>>,
                                     dbFallback: string -> Option<R>, seconds: nat, now: int)
    returns (r: Option<R>, task: Option<RebuildTask<R>>)
    requires keyPrefix + id in c.redis.strings && !IsBlank(c.redis.strings[keyPrefix + id])
    requires json.decode(c.redis.strings[keyPrefix + id]).expireTime <= now
    requires LOCK_SHOP_KEY + id in c.redis.strings
    modifies c.redis
    ensures r == json.decode(old(c.redis.strings)[keyPrefix + id]).data
    ensures task.None? && unchanged(c.redis)
  {
    r, task := c.QueryWithLogicalExpire(keyPrefix, id, json, dbFallback, seconds, now);
  }

  /** A scheduled rebuild leaves the entry fresh and the lock free, so a read
      before the new expiry returns the reloaded data and schedules nothing. */
  method RebuildThenRead<R(!new)>(c: CacheClient, keyPrefix: string, id: string, json: Codec<RedisData<R>>,
                                  dbFallback: string -> Option<R>, seconds: nat, now: int, later: int)
    returns (r: Option<R>, again: Option<RebuildTask<R>>)
    requires Faithful(json)
    requires keyPrefix + id != LOCK_SHOP_KEY + id
    requires keyPrefix + id in c.redis.strings && !IsBlank(c.redis.strings[keyPrefix + id])
    requires json.decode(c.redis.strings[keyPrefix + id]).expireTime <= now
    requires LOCK_SHOP_KEY + id !in c.redis.strings
    requires later < now + seconds
    modifies c.redis
    ensures r == dbFallback(id) && again.None?
    ensures LOCK_SHOP_KEY + id !in c.redis.strings
  {
    var stale, task := c.QueryWithLogicalExpire(keyPrefix, id, json, dbFallback, seconds, now);
    c.RunRebuild(task.value, json, now);
    r, again := c.QueryWithLogicalExpire(keyPrefix, id, json, dbFallback, seconds, later);
  }
}
