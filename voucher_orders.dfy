/** VoucherOrderServiceImpl: seckill admission on the reservation script's
    result code, a bounded FIFO of order tasks, and the single consumer that
    creates the order row under a per-user lock. Modelled as written: the
    consumer takes one task only, a failed lock and a duplicate are only
    logged, and the duplicate query filters user_id by the order's id. */
module VoucherOrders {
  import opened Util
  import opened RedisStore
  import opened IdGeneration

  /** The tb_voucher_order columns the pipeline sets. */
  datatype VoucherOrder = VoucherOrder(id: int, userId: int, voucherId: int)

  /** capacity of the ArrayBlockingQueue orderTasks */
  const QUEUE_CAPACITY: nat := 1024 * 1024

  /** the key prefix the order ids are counted under */
  const ORDER_PREFIX: string := "order"

  /** The two refusals: "coupon sold out" (code 1) and "no repeat purchase" (any other non-zero code). */
  datatype Rejection = SoldOut | Duplicate

  /** What seckillVoucher answers: Result.ok(orderId), Result.fail(message),
      or the IllegalStateException that add throws on a full queue. */
  datatype SeckillReply = Admitted(orderId: int) | Refused(reason: Rejection) | QueueFull

  /** SimpleRedisLock calls, in the order they were made. */
  datatype LockEvent = TryLock(name: string, acquired: bool) | Unlock(name: string)

  /** Long.intValue: the low 32 bits, read as a signed int. */
  function IntValue(l: int): (i: int)
    ensures -TWO_31 <= i < TWO_31
    ensures (l - i) % TWO_32 == 0
  {
    (l + TWO_31) % TWO_32 - TWO_31
  }

  /** The admission decision on the script's result: 0 admits, 1 is sold out,
      any other code is a repeat purchase. */
  function Rejected(result: int): (r: Option<Rejection>)
    ensures r.None? <==> IntValue(result) == 0
    ensures r == Some(SoldOut) <==> IntValue(result) == 1
    ensures r == Some(Duplicate) <==> IntValue(result) != 0 && IntValue(result) != 1
  {
    var code := IntValue(result);
    if code != 0 then Some(if code == 1 then SoldOut else Duplicate) else None
  }

  /** intValue only sees the low 32 bits: results that differ by a multiple
      of 2^32 are read as the same int. */
  lemma IntValuePeriodic(l: int, k: int)
    ensures IntValue(l + k * TWO_32) == IntValue(l)
  {
    var a := l + TWO_31;
    var q, m := a / TWO_32, a % TWO_32;
    assert a == q * TWO_32 + m && 0 <= m < TWO_32;
    assert a + k * TWO_32 == (q + k) * TWO_32 + m;
    ModUnique(a + k * TWO_32, q + k, m);
  }

  /** The remainder of a division by 2^32 is the one in range. */
  lemma ModUnique(a: int, q: int, m: int)
    requires a == q * TWO_32 + m && 0 <= m < TWO_32
    ensures a % TWO_32 == m
  {
  }

  /** So the admission decision ignores everything above the low 32 bits of the result. */
  lemma RejectedIgnoresHighBits(result: int, k: int)
    ensures Rejected(result + k * TWO_32) == Rejected(result)
  {
    IntValuePeriodic(result, k);
  }

  /** The codes the reservation script returns are read as themselves. */
  lemma ScriptCodes()
    ensures Rejected(0).None? && Rejected(1) == Some(SoldOut) && Rejected(2) == Some(Duplicate)
  {
  }

  /** The same lock name for every order of one user: "order:" + userId. */
  function LockName(userId: int): string { "order:" + DecimalString(userId) }

  /** count() of the rows with the given user_id and voucher_id. */
  function CountOrders(rows: seq<VoucherOrder>, userId: int, voucherId: int): (n: nat)
    ensures n <= |rows|
    ensures n > 0 <==> exists i :: 0 <= i < |rows| && rows[i].userId == userId && rows[i].voucherId == voucherId
  {
    if rows == [] then 0
    else
      var rest := CountOrders(rows[1..], userId, voucherId);
      assert forall i :: 1 <= i < |rows| ==> rows[i] == rows[1..][i - 1];
      (if rows[0].userId == userId && rows[0].voucherId == voucherId then 1 else 0) + rest
  }

  /** The duplicate query as written looks for the order's id in user_id, so a
      user who already has an order for the voucher is not seen, as long as no
      user id equals the new order id. */
  lemma DuplicateQueryMissesRepeatBuyer(rows: seq<VoucherOrder>, o: VoucherOrder)
    requires forall i :: 0 <= i < |rows| ==> rows[i].userId != o.id
    ensures CountOrders(rows, o.id, o.voucherId) == 0
  {
  }

  /** One concrete case: user 7 already holds order 100 for voucher 3; the
      query for their new order 101 counts 0 where filtering by user id counts 1. */
  lemma DuplicateQueryExample()
    ensures CountOrders([VoucherOrder(100, 7, 3)], 101, 3) == 0
    ensures CountOrders([VoucherOrder(100, 7, 3)], 7, 3) == 1
  {
  }

  class VoucherOrderService {
    const redisIdWorker: RedisIdWorker
    /** the bounded blocking queue, head first */
    var orderTasks: seq<VoucherOrder>
    /** tb_voucher_order */
    var orders: seq<VoucherOrder>
    /** tb_seckill_voucher: stock by voucher_id */
    var stock: map<int, int>
    var lockEvents: seq<LockEvent>
    /** the single VoucherOrderHandler submitted at start-up has not taken its task yet */
    var handlerWaiting: bool

    ghost predicate Valid()
      reads this
    {
      && |orderTasks| <= QUEUE_CAPACITY
      && forall v :: v in stock ==> stock[v] >= 0
    }

    /** The service after @PostConstruct init: empty queue, the handler submitted and waiting. */
    constructor (redisIdWorker: RedisIdWorker, orders: seq<VoucherOrder>, stock: map<int, int>)
      requires forall v :: v in stock ==> stock[v] >= 0
      ensures Valid()
      ensures this.redisIdWorker == redisIdWorker && this.orders == orders && this.stock == stock
      ensures orderTasks == [] && lockEvents == [] && handlerWaiting
    {
      this.redisIdWorker := redisIdWorker;
      this.orders, this.stock := orders, stock;
      orderTasks, lockEvents, handlerWaiting := [], [], true;
    }

    /** seckillVoucher for the caller `userId`, given the code `scriptResult`
        the reservation script returned, the clock and the formatted day. */
    method SeckillVoucher(voucherId: int, userId: int, scriptResult: int, nowSecond: int, date: string)
      returns (res: SeckillReply)
      requires Valid()
      modifies this, redisIdWorker.redis
      ensures Valid()
      ensures orders == old(orders) && stock == old(stock) && lockEvents == old(lockEvents)
      ensures handlerWaiting == old(handlerWaiting)
      ensures Rejected(scriptResult).Some? ==>
        res == Refused(Rejected(scriptResult).value) && orderTasks == old(orderTasks) && unchanged(redisIdWorker.redis)
      ensures Rejected(scriptResult).None? ==>
        var key := CounterKey(ORDER_PREFIX, date);
        var count := (if key in old(redisIdWorker.redis.counters) then old(redisIdWorker.redis.counters)[key] else 0) + 1;
        var orderId := ComposeId(nowSecond - BEGIN_TIMESTAMP, count);
        && redisIdWorker.redis.counters == old(redisIdWorker.redis.counters)[key := count]
        && redisIdWorker.redis.strings == old(redisIdWorker.redis.strings)
        && redisIdWorker.redis.hashes == old(redisIdWorker.redis.hashes)
        && redisIdWorker.redis.ttl == old(redisIdWorker.redis.ttl)
        && (|old(orderTasks)| < QUEUE_CAPACITY ==>
              res == Admitted(orderId) && orderTasks == old(orderTasks) + [VoucherOrder(orderId, userId, voucherId)])
        && (|old(orderTasks)| == QUEUE_CAPACITY ==> res == QueueFull && orderTasks == old(orderTasks))
    {
      var r := Rejected(scriptResult);
      if r.Some? {
        return Refused(r.value);
      }
      var orderId := redisIdWorker.NextId(ORDER_PREFIX, nowSecond, date);
      var voucherOrder := VoucherOrder(orderId, userId, voucherId);
      var added := AddTask(voucherOrder);
      if !added {
        return QueueFull;
      }
      res := Admitted(orderId);
    }

    /** orderTasks.add: appends at the tail, or fails on a full queue. */
    method AddTask(o: VoucherOrder) returns (ok: bool)
      requires Valid()
      modifies this
      ensures Valid()
      ensures ok <==> |old(orderTasks)| < QUEUE_CAPACITY
      ensures orderTasks == if ok then old(orderTasks) + [o] else old(orderTasks)
      ensures orders == old(orders) && stock == old(stock) && lockEvents == old(lockEvents)
      ensures handlerWaiting == old(handlerWaiting)
    {
      ok := |orderTasks| < QUEUE_CAPACITY;
      if ok {
        orderTasks := orderTasks + [o];
      }
    }

    /** VoucherOrderHandler.run: take the head of the queue and handle it,
        once. While the queue is empty, take blocks: nothing happens. After
        its one task the handler is finished and later calls do nothing.
        `lockAcquired` is what SimpleRedisLock.tryLock answers. */
    method RunHandler(lockAcquired: bool) returns (taken: Option<VoucherOrder>)
      requires Valid()
      modifies this
      ensures Valid()
      ensures !old(handlerWaiting) || old(orderTasks) == [] ==> taken.None? && unchanged(this)
      ensures old(handlerWaiting) && old(orderTasks) != [] ==>
        var o := old(orderTasks)[0];
        && taken == Some(o)
        && orderTasks == old(orderTasks)[1..] && !handlerWaiting
        && lockEvents == old(lockEvents) + [TryLock(LockName(o.userId), lockAcquired), Unlock(LockName(o.userId))]
        && orders == old(orders) + [o]
        && stock == (if o.voucherId in old(stock) && old(stock)[o.voucherId] > 0
                     then old(stock)[o.voucherId := old(stock)[o.voucherId] - 1] else old(stock))
    {
      if !handlerWaiting || orderTasks == [] {
        return None;
      }
      var o := orderTasks[0];
      orderTasks := orderTasks[1..];
      handlerWaiting := false;
      HandleVoucherOrder(o, lockAcquired);
      taken := Some(o);
    }

    /** handleVoucherOrder: lock "order:" + userId, create the order whether
        or not the lock was acquired, unlock in finally. */
    method HandleVoucherOrder(o: VoucherOrder, lockAcquired: bool)
      requires Valid()
      modifies this
      ensures Valid()
      ensures lockEvents == old(lockEvents) + [TryLock(LockName(o.userId), lockAcquired), Unlock(LockName(o.userId))]
      ensures orders == old(orders) + [o]
      ensures stock == (if o.voucherId in old(stock) && old(stock)[o.voucherId] > 0
                        then old(stock)[o.voucherId := old(stock)[o.voucherId] - 1] else old(stock))
      ensures orderTasks == old(orderTasks) && handlerWaiting == old(handlerWaiting)
    {
      var name := LockName(o.userId);
      lockEvents := lockEvents + [TryLock(name, lockAcquired)];
      var duplicates, stockTaken := CreateVoucherOrder(o);
      lockEvents := lockEvents + [Unlock(name)];
    }

    /** createVoucherOrder. `duplicates` and `stockTaken` are the values the
        source only logs: the count of the duplicate query (which, as written,
        looks up user_id = the order id) and whether the guarded decrement
        (stock = stock - 1 where stock > 0) updated a row. The order is saved
        in every case. */
    method CreateVoucherOrder(o: VoucherOrder) returns (duplicates: nat, stockTaken: bool)
      requires Valid()
      modifies this
      ensures Valid()
      ensures duplicates == CountOrders(old(orders), o.id, o.voucherId)
      ensures stockTaken <==> o.voucherId in old(stock) && old(stock)[o.voucherId] > 0
      ensures stock == if stockTaken then old(stock)[o.voucherId := old(stock)[o.voucherId] - 1] else old(stock)
      ensures orders == old(orders) + [o]
      ensures orderTasks == old(orderTasks) && lockEvents == old(lockEvents) && handlerWaiting == old(handlerWaiting)
    {
      var voucherId := o.voucherId;
      var userId := o.id;
      duplicates := CountOrders(orders, userId, voucherId);
      stockTaken := voucherId in stock && stock[voucherId] > 0;
      if stockTaken {
        stock := stock[voucherId := stock[voucherId] - 1];
      }
      orders := orders + [o];
    }
  }
  /** Two admitted orders, the handler running after each: the first order is
      persisted, and since the single handler ends after its first task, the
      second stays in the queue and is never written to the order table. */
  method OnlyFirstOrderIsPersisted(s: VoucherOrderService, voucherId: int, u1: int, u2: int,
                                   now1: int, now2: int, date: string)
    returns (r1: SeckillReply, r2: SeckillReply, t1: Option<VoucherOrder>, t2: Option<VoucherOrder>)
    requires s.Valid() && s.handlerWaiting && s.orderTasks == []
    modifies s, s.redisIdWorker.redis
    ensures r1.Admitted? && r2.Admitted?
    ensures t1 == Some(VoucherOrder(r1.orderId, u1, voucherId)) && t2.None?
    ensures s.orders == old(s.orders) + [VoucherOrder(r1.orderId, u1, voucherId)]
    ensures s.orderTasks == [VoucherOrder(r2.orderId, u2, voucherId)]
  {
    r1 := s.SeckillVoucher(voucherId, u1, 0, now1, date);
    t1 := s.RunHandler(true);
    r2 := s.SeckillVoucher(voucherId, u2, 0, now2, date);
    t2 := s.RunHandler(true);
  }
}
