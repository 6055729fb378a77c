/** The Redis server as the services see it through StringRedisTemplate:
    string values, hashes and integer counters, each under a string key, plus
    the expiry (in seconds) recorded for keys that carry one. Expiry is kept
    as metadata only: no clock runs here, so nothing ever times out. */
module RedisStore {
  import opened Util

  class Redis {
    var strings: map<string, string>
    var hashes: map<string, map<string, string>>
    var counters: map<string, int>
    var ttl: map<string, nat>

    constructor ()
      ensures strings == map[] && hashes == map[] && counters == map[] && ttl == map[]
    {
      strings, hashes, counters, ttl := map[], map[], map[], map[];
    }

    /** GET key. */
    method Get(key: string) returns (v: Option<string>)
      ensures v == Lookup(strings, key)
    {
      v := Lookup(strings, key);
    }

    /** SET key value (no expiry: a previous expiry is discarded). */
    method Set(key: string, value: string)
      modifies this
      ensures strings == old(strings)[key := value]
      ensures Lookup(strings, key) == Some(value)
      ensures ttl == old(ttl) - {key}
      ensures hashes == old(hashes) && counters == old(counters)
    {
      strings := strings[key := value];
      ttl := ttl - {key};
    }

    /** SET key value EX seconds. */
    method SetEx(key: string, value: string, seconds: nat)
      modifies this
      ensures strings == old(strings)[key := value]
      ensures Lookup(strings, key) == Some(value)
      ensures ttl == old(ttl)[key := seconds]
      ensures hashes == old(hashes) && counters == old(counters)
    {
      strings := strings[key := value];
      ttl := ttl[key := seconds];
    }

    /** SET key value EX seconds NX: succeeds, and writes, only when the key is absent. */
    method SetIfAbsent(key: string, value: string, seconds: nat) returns (ok: bool)
      modifies this
      ensures ok <==> key !in old(strings)
      ensures ok ==> strings == old(strings)[key := value] && ttl == old(ttl)[key := seconds]
      ensures !ok ==> unchanged(this)
      ensures key in strings
      ensures hashes == old(hashes) && counters == old(counters)
    {
      ok := key !in strings;
      if ok {
        strings := strings[key := value];
        ttl := ttl[key := seconds];
      }
    }

    /** DEL key: removes the key whatever it holds. */
    method Delete(key: string)
      modifies this
      ensures strings == old(strings) - {key}
      ensures Lookup(strings, key).None?
      ensures hashes == old(hashes) - {key}
      ensures counters == old(counters) - {key}
      ensures ttl == old(ttl) - {key}
    {
      strings, hashes, counters, ttl := strings - {key}, hashes - {key}, counters - {key}, ttl - {key};
    }

    /** INCR key: an absent counter starts from 0; the new value is returned. */
    method Increment(key: string) returns (n: int)
      modifies this
      ensures n == (if key in old(counters) then old(counters)[key] else 0) + 1
      ensures counters == old(counters)[key := n]
      ensures strings == old(strings) && hashes == old(hashes) && ttl == old(ttl)
    {
      n := (if key in counters then counters[key] else 0) + 1;
      counters := counters[key := n];
    }

    /** HMSET key fields: the fields are merged into the hash, new values winning. */
    method HashPutAll(key: string, fields: map<string, string>)
      modifies this
      ensures hashes == old(hashes)[key := (if key in old(hashes) then old(hashes)[key] else map[]) + fields]
      ensures strings == old(strings) && counters == old(counters) && ttl == old(ttl)
    {
      hashes := hashes[key := (if key in hashes then hashes[key] else map[]) + fields];
    }

    /** EXPIRE key seconds: only a key that exists gets an expiry. */
    method Expire(key: string, seconds: nat)
      modifies this
      ensures ttl == if key in old(strings) || key in old(hashes) || key in old(counters)
                     then old(ttl)[key := seconds] else old(ttl)
      ensures strings == old(strings) && hashes == old(hashes) && counters == old(counters)
    {
      if key in strings || key in hashes || key in counters {
        ttl := ttl[key := seconds];
      }
    }
  }
}

/** Key prefixes and expiry times the services use. RedisConstants and
    SystemConstants are not part of this model; the values below are
    placeholders, and the proofs only use that the cache and lock prefixes
    differ in their first character. */
module RedisConstants {
  const CACHE_SHOP_KEY: string := "cache:shop:"
  const LOCK_SHOP_KEY: string := "lock:shop:"
  /** minutes */
  const CACHE_NULL_TTL: nat := 2
  /** minutes */
  const CACHE_SHOP_TTL: nat := 30
  /** seconds */
  const LOCK_SHOP_TTL: nat := 10
  const LOGIN_CODE_KEY: string := "login:code:"
  /** minutes */
  const LOGIN_CODE_TTL: nat := 2
  const LOGIN_USER_KEY: string := "login:token:"
  /** seconds */
  const LOGIN_USER_TTL: nat := 36000
  const USER_NICK_NAME_PREFIX: string := "user_"

  /** TimeUnit.MINUTES.toSeconds */
  function Minutes(m: nat): nat { 60 * m }
}
