/** RedisIdWorker: a 64-bit id made of the seconds since 2024-01-01T00:00:00Z
    in the high bits and a per-prefix, per-day Redis counter in the low 32 bits.
    Java's long arithmetic (two's complement, wrap-around shift, bitwise or)
    is written out on mathematical integers. */
module IdGeneration {
  import opened Util
  import opened RedisStore

  const BEGIN_TIMESTAMP: int := 1704067200
  const COUNT_BITS: nat := 32

  const TWO_31: int := 0x8000_0000
  const TWO_32: int := 0x1_0000_0000
  const TWO_63: int := 0x8000_0000_0000_0000
  const TWO_64: int := 0x1_0000_0000_0000_0000

  function Pow2(n: nat): (r: nat)
    ensures r >= 1
  {
    if n == 0 then 1 else 2 * Pow2(n - 1)
  }

  lemma Pow2Constants()
    ensures Pow2(COUNT_BITS) == TWO_32 && Pow2(64) == TWO_64
  {
    assert Pow2(2) == 4;
    assert Pow2(4) == 16 by { Pow2Add(2, 2); }
    assert Pow2(8) == 256 by { Pow2Add(4, 4); }
    assert Pow2(16) == 0x1_0000 by { Pow2Add(8, 8); }
    assert Pow2(32) == Pow2(16) * Pow2(16) by { Pow2Add(16, 16); }
    assert Pow2(64) == Pow2(32) * Pow2(32) by { Pow2Add(32, 32); }
  }

  lemma {:induction false} Pow2Add(a: nat, b: nat)
    ensures Pow2(a + b) == Pow2(a) * Pow2(b)
    decreases a
  {
    if a > 0 {
      Pow2Add(a - 1, b);
    }
  }

  /** The 64 bits of a long, read as an unsigned number. */
  function Unsigned64(x: int): (u: nat)
    ensures u < TWO_64
  {
    x % TWO_64
  }

  /** The long whose 64 bits, read unsigned, are u. */
  function Signed64(u: nat): (x: int)
    requires u < TWO_64
    ensures -TWO_63 <= x < TWO_63
    ensures Unsigned64(x) == u
  {
    if u < TWO_63 then u else u - TWO_64
  }

  /** Bitwise or of the low `width` bits of a and b. */
  function BitOr(a: nat, b: nat, width: nat): (r: nat)
    ensures r < Pow2(width)
  {
    if width == 0 then 0
    else (if a % 2 == 1 || b % 2 == 1 then 1 else 0) + 2 * BitOr(a / 2, b / 2, width - 1)
  }

  /** Java's x << 32 on a long: the bits shifted out at the top are lost. */
  function ShiftLeft32(x: int): (y: int)
    ensures -TWO_63 <= y < TWO_63
  {
    Signed64(Unsigned64(x) * TWO_32 % TWO_64)
  }

  /** Java's x | y on longs. */
  function Or64(x: int, y: int): (z: int)
    ensures -TWO_63 <= z < TWO_63
  {
    Pow2Constants();
    Signed64(BitOr(Unsigned64(x), Unsigned64(y), 64))
  }

  /** timestamp << COUNT_BITS | increment */
  function ComposeId(timestamp: int, increment: int): int
  {
    Or64(ShiftLeft32(timestamp), increment)
  }

  /** The high and low halves of an id: id >> 32 and id & 0xFFFFFFFF. */
  function IdTimestamp(id: int): int { id / TWO_32 }

  function IdCounter(id: int): int { id % TWO_32 }

  lemma {:induction false} OrWithZero(a: nat, width: nat)
    requires a < Pow2(width)
    ensures BitOr(a, 0, width) == a
    decreases width
  {
    if width > 0 {
      OrWithZero(a / 2, width - 1);
    }
  }

  /** Or-ing a number whose low k bits are zero with one below 2^k is addition. */
  lemma {:induction false} OrDisjoint(hi: nat, lo: nat, k: nat, width: nat)
    requires k <= width && lo < Pow2(k) && hi * Pow2(k) < Pow2(width)
    ensures BitOr(hi * Pow2(k), lo, width) == hi * Pow2(k) + lo
    decreases k
  {
    if k == 0 {
      OrWithZero(hi, width);
    } else {
      var a := hi * Pow2(k);
      assert a == 2 * (hi * Pow2(k - 1));
      assert a % 2 == 0 && a / 2 == hi * Pow2(k - 1);
      assert hi * Pow2(k - 1) < Pow2(width - 1);
      OrDisjoint(hi, lo / 2, k - 1, width - 1);
    }
  }

  /** The high word that `timestamp << 32` leaves: the timestamp's low 32 bits, unsigned. */
  function HighWord(timestamp: int): nat
    requires -TWO_31 <= timestamp < TWO_31
  {
    if timestamp >= 0 then timestamp else timestamp + TWO_32
  }

  /** Shifting a timestamp in the signed 32-bit range puts its 32 bits in the high word. */
  lemma ShiftedBits(timestamp: int)
    requires -TWO_31 <= timestamp < TWO_31
    ensures Unsigned64(ShiftLeft32(timestamp)) == HighWord(timestamp) * TWO_32
  {
    var u := Unsigned64(timestamp);
    var h := HighWord(timestamp) * TWO_32;
    assert 0 <= h < TWO_64;
    if timestamp >= 0 {
      assert u == timestamp;
      Mod64Unique(u * TWO_32, 0, h);
    } else {
      assert u == timestamp + TWO_64;
      assert u * TWO_32 == h + (TWO_32 - 1) * TWO_64;
      Mod64Unique(u * TWO_32, TWO_32 - 1, h);
    }
  }

  /** The remainder of a division by 2^64 is the one in range. */
  lemma Mod64Unique(a: int, q: int, m: int)
    requires a == q * TWO_64 + m && 0 <= m < TWO_64
    ensures a % TWO_64 == m
  {
  }

  /** For a timestamp that fits in 32 signed bits and a counter below 2^32,
      the id is exactly timestamp * 2^32 + counter. */
  lemma ComposeIdValue(timestamp: int, increment: int)
    requires -TWO_31 <= timestamp < TWO_31 && 0 <= increment < TWO_32
    ensures ComposeId(timestamp, increment) == timestamp * TWO_32 + increment
  {
    Pow2Constants();
    var hi := HighWord(timestamp);
    ShiftedBits(timestamp);
    assert Unsigned64(increment) == increment;
    assert hi * Pow2(32) < Pow2(64);
    OrDisjoint(hi, increment, 32, 64);
    var bits := BitOr(Unsigned64(ShiftLeft32(timestamp)), Unsigned64(increment), 64);
    assert bits == hi * TWO_32 + increment;
    if timestamp < 0 {
      assert bits == timestamp * TWO_32 + increment + TWO_64;
    }
  }

  /** Round trip: the id's high bits give the timestamp back and its low 32 bits the counter. */
  lemma ComposeIdRoundTrip(timestamp: int, increment: int)
    requires -TWO_31 <= timestamp < TWO_31 && 0 <= increment < TWO_32
    ensures IdTimestamp(ComposeId(timestamp, increment)) == timestamp
    ensures IdCounter(ComposeId(timestamp, increment)) == increment
  {
    ComposeIdValue(timestamp, increment);
  }

  /** Ids order like (timestamp, counter) pairs, lexicographically; in
      particular, distinct pairs give distinct ids. */
  lemma ComposeIdOrder(t1: int, c1: int, t2: int, c2: int)
    requires -TWO_31 <= t1 < TWO_31 && 0 <= c1 < TWO_32
    requires -TWO_31 <= t2 < TWO_31 && 0 <= c2 < TWO_32
    ensures ComposeId(t1, c1) < ComposeId(t2, c2) <==> t1 < t2 || (t1 == t2 && c1 < c2)
    ensures ComposeId(t1, c1) == ComposeId(t2, c2) <==> t1 == t2 && c1 == c2
  {
    ComposeIdValue(t1, c1);
    ComposeIdValue(t2, c2);
    if t1 < t2 {
      assert t1 * TWO_32 + TWO_32 <= t2 * TWO_32;
    } else if t2 < t1 {
      assert t2 * TWO_32 + TWO_32 <= t1 * TWO_32;
    }
  }

  /** Once the timestamp reaches 2^31 seconds after the start (in 2092) the
      shift pushes it into the sign bit and ids turn negative: the round trip
      and the ordering above hold only below that. */
  lemma ComposeIdOverflows()
    ensures ComposeId(TWO_31, 1) < 0
  {
    assert Unsigned64(TWO_31) * TWO_32 % TWO_64 == TWO_63;
    Pow2Constants();
    OrDisjoint(TWO_31, 1, 32, 64);
  }

  /** Days from 1970-01-01 to the given proleptic Gregorian date (the
      400-year era is y / 400, which rounds down for negative years too). */
  function DaysFromCivil(year: int, month: int, day: int): int
    requires 1 <= month <= 12 && 1 <= day <= 31
  {
    var y := if month <= 2 then year - 1 else year;
    var era := y / 400;
    var yoe := y - era * 400;
    var mp := (month + 9) % 12;
    var doy := (153 * mp + 2) / 5 + day - 1;
    var doe := yoe * 365 + yoe / 4 - yoe / 100 + doy;
    era * 146097 + doe - 719468
  }

  /** LocalDateTime.toEpochSecond(ZoneOffset.UTC). */
  function EpochSecondUtc(year: int, month: int, day: int, hour: int, minute: int, second: int): int
    requires 1 <= month <= 12 && 1 <= day <= 31
  {
    DaysFromCivil(year, month, day) * 86400 + hour * 3600 + minute * 60 + second
  }

  /** BEGIN_TIMESTAMP is 2024-01-01T00:00:00 read as UTC. */
  lemma BeginTimestampIsStartOf2024()
    ensures EpochSecondUtc(2024, 1, 1, 0, 0, 0) == BEGIN_TIMESTAMP
    ensures EpochSecondUtc(1970, 1, 1, 0, 0, 0) == 0
  {
    assert 2023 / 400 == 5 && (1 + 9) % 12 == 10 && (153 * 10 + 2) / 5 == 306;
    assert 23 / 4 == 5 && 23 / 100 == 0;
    assert DaysFromCivil(2024, 1, 1) == 5 * 146097 + (23 * 365 + 5 + 306) - 719468 == 19723;
    assert 19723 * 86400 == BEGIN_TIMESTAMP;
    assert 1969 / 400 == 4 && 369 / 4 == 92 && 369 / 100 == 3;
    assert DaysFromCivil(1970, 1, 1) == 4 * 146097 + (369 * 365 + 92 - 3 + 306) - 719468 == 0;
  }

  /** The counter key of a prefix and a formatted date (yyyy:MM:dd). */
  function CounterKey(keyPrefix: string, date: string): string
  {
    "icr:" + keyPrefix + ":" + date
  }

  /** For one prefix, each day has its own counter. */
  lemma CounterKeyPerDay(keyPrefix: string, d1: string, d2: string)
    ensures CounterKey(keyPrefix, d1) == CounterKey(keyPrefix, d2) <==> d1 == d2
  {
    SamePrefixKeys("icr:" + keyPrefix + ":", d1, d2);
  }

  class RedisIdWorker {
    const redis: Redis

    constructor (redis: Redis)
      ensures this.redis == redis
    {
      this.redis := redis;
    }

    /** nextId, with the clock read as `nowSecond` (epoch seconds of the local
        time read as UTC) and `date` its yyyy:MM:dd formatting. */
    method NextId(keyPrefix: string, nowSecond: int, date: string) returns (id: int)
      modifies redis
      ensures var key := CounterKey(keyPrefix, date);
        var count := (if key in old(redis.counters) then old(redis.counters)[key] else 0) + 1;
        && redis.counters == old(redis.counters)[key := count]
        && id == ComposeId(nowSecond - BEGIN_TIMESTAMP, count)
      ensures redis.strings == old(redis.strings) && redis.hashes == old(redis.hashes) && redis.ttl == old(redis.ttl)
    {
      var timestamp := nowSecond - BEGIN_TIMESTAMP;
      var increment := redis.Increment(CounterKey(keyPrefix, date));
      id := ComposeId(timestamp, increment);
    }
  }

  /** Ids composed from a non-decreasing timestamp and consecutive counters increase. */
  lemma ConsecutiveIds(ts1: int, ts2: int, c: int, id1: int, id2: int)
    requires -TWO_31 <= ts1 <= ts2 < TWO_31 && 0 <= c < TWO_32 - 2
    requires id1 == ComposeId(ts1, c + 1) && id2 == ComposeId(ts2, c + 2)
    ensures id1 < id2
    ensures IdCounter(id2) == IdCounter(id1) + 1
    ensures IdTimestamp(id1) == ts1 && IdTimestamp(id2) == ts2
  {
    ComposeIdValue(ts1, c + 1);
    ComposeIdValue(ts2, c + 2);
    SplitWord(ts1, c + 1, id1);
    SplitWord(ts2, c + 2, id2);
    assert ts1 * TWO_32 <= ts2 * TWO_32;
  }

  /** ts * 2^32 + c splits back into ts and c under division by 2^32. */
  lemma SplitWord(ts: int, c: int, id: int)
    requires 0 <= c < TWO_32 && id == ts * TWO_32 + c
    ensures IdTimestamp(id) == ts && IdCounter(id) == c
  {
  }

  /** Two successive calls for one prefix and one day, with a clock that does
      not go back, give strictly increasing (hence distinct) ids whose low bits
      are consecutive counter values. */
  method SuccessiveIdsIncrease(w: RedisIdWorker, keyPrefix: string, date: string, now1: int, now2: int)
    returns (id1: int, id2: int)
    requires BEGIN_TIMESTAMP - TWO_31 <= now1 <= now2 < BEGIN_TIMESTAMP + TWO_31
    requires var key := CounterKey(keyPrefix, date);
      key in w.redis.counters ==> 0 <= w.redis.counters[key] < TWO_32 - 2
    modifies w.redis
    ensures id1 < id2
    ensures IdCounter(id2) == IdCounter(id1) + 1
    ensures IdTimestamp(id1) == now1 - BEGIN_TIMESTAMP && IdTimestamp(id2) == now2 - BEGIN_TIMESTAMP
  {
    ghost var key := CounterKey(keyPrefix, date);
    ghost var c := if key in w.redis.counters then w.redis.counters[key] else 0;
    id1 := w.NextId(keyPrefix, now1, date);
    id2 := w.NextId(keyPrefix, now2, date);
    ConsecutiveIds(now1 - BEGIN_TIMESTAMP, now2 - BEGIN_TIMESTAMP, c, id1, id2);
  }
}
