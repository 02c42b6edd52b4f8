/** The decorators as objects: a Redis client, the read-through cache over the in-memory
  * store, and the event publisher over the cache.
  */
module StoreStack {
  import opened Sequences
  import opened Orders
  import opened MemoryStore
  import opened StackSpec

  datatype Reply = Hit(payload: Payload) | Nil | Failed

  class Redis {
    var entries: Cache

    constructor ()
      ensures entries == map[]
    {
      entries := map[];
    }

    /** Expiry, eviction and corruption since the last command. */
    method Decay(env: Conduct)
      modifies this
      ensures entries == Decayed(old(entries), env)
    {
      entries := map key | key in entries && key !in env.lost ::
        if key in env.garbled then Undecodable else entries[key];
    }

    method Get(key: string, env: Conduct) returns (r: Reply)
      ensures r == if !env.readOk then Failed else if key in entries then Hit(entries[key]) else Nil
    {
      if !env.readOk {
        return Failed;
      }
      r := if key in entries then Hit(entries[key]) else Nil;
    }

    method Set(key: string, payload: Payload, env: Conduct)
      modifies this
      ensures entries == if env.setApplied then old(entries)[key := payload] else old(entries)
    {
      if env.setApplied {
        entries := entries[key := payload];
      }
    }

    method Del(keys: seq<string>, env: Conduct)
      modifies this
      ensures entries == if env.delApplied then old(entries) - Elements(keys) else old(entries)
    {
      if env.delApplied {
        entries := map key | key in entries && key !in keys :: entries[key];
      }
    }
  }

  class CachingStore {
    const inner: InMemoryStore
    const redis: Redis

    constructor (inner: InMemoryStore, redis: Redis)
      ensures this.inner == inner && this.redis == redis
    {
      this.inner, this.redis := inner, redis;
    }

    ghost predicate Valid()
      reads inner, redis, inner.orders.Values
    {
      inner.Valid()
    }

    method Get(id: string, env: Conduct) returns (r: Result<Order>)
      requires Valid()
      modifies redis
      ensures Valid()
      ensures r == GetResult(inner.Contents(), old(redis.entries), id, env)
      ensures redis.entries == GetCache(inner.Contents(), old(redis.entries), id, env)
    {
      redis.Decay(env);
      if !env.connected {
        r := inner.Get(id);
        return;
      }
      var key := CacheKey(id);
      var cached := redis.Get(key, env);
      if cached.Hit? {
        if cached.payload.Json? {
          return Ok(cached.payload.order);
        }
      }
      r := inner.Get(id);
      if r.Err? {
        return;
      }
      redis.Set(key, Json(r.value), env);
    }

    method ConfirmPending(id: string, at: int, env: Conduct) returns (r: Result<bool>)
      requires Valid()
      modifies inner.orders.Values, redis
      ensures Valid() && inner.orders == old(inner.orders)
      ensures r == ConfirmResult(old(inner.Contents()), id)
      ensures inner.Contents() == ConfirmedStore(old(inner.Contents()), id, at)
      ensures ConfirmsExactly(old(inner.Contents()), inner.Contents(), id, at, r)
      ensures redis.entries ==
        if r.Ok? then Invalidated(old(redis.entries), {id}, env) else Decayed(old(redis.entries), env)
    {
      r := inner.ConfirmPending(id, at);
      redis.Decay(env);
      if r.Ok? {
        assert Elements([id]) == {id};
        Invalidate([id], env);
      }
    }

    method CancelStalePending(cutoff: int, clock: string -> int, env: Conduct) returns (ids: seq<string>)
      requires Valid()
      modifies inner.orders.Values, redis
      ensures Valid() && inner.orders == old(inner.orders)
      ensures Enumerates(ids, StaleIDs(old(inner.Contents()), cutoff))
      ensures inner.Contents() == SweptStore(old(inner.Contents()), cutoff, clock)
      ensures SweepsExactly(old(inner.Contents()), inner.Contents(), ids, cutoff, clock)
      ensures redis.entries == Invalidated(old(redis.entries), StaleIDs(old(inner.Contents()), cutoff), env)
    {
      ids := inner.CancelStalePending(cutoff, clock);
      redis.Decay(env);
      Invalidate(ids, env);
      assert Elements(ids) == StaleIDs(old(inner.Contents()), cutoff);
    }

    method Invalidate(ids: seq<string>, env: Conduct)
      modifies redis
      ensures redis.entries ==
        if env.connected && env.delApplied then old(redis.entries) - (set id | id in Elements(ids) :: CacheKey(id))
        else old(redis.entries)
    {
      if !env.connected || |ids| == 0 {
        return;
      }
      var keys: seq<string> := [];
      for i := 0 to |ids|
        invariant |keys| == i && forall j | 0 <= j < i :: keys[j] == CacheKey(ids[j])
      {
        keys := keys + [CacheKey(ids[i])];
      }
      redis.Del(keys, env);
      assert Elements(keys) == set id | id in Elements(ids) :: CacheKey(id);
    }
  }

  class PublishingStore {
    const inner: CachingStore
    var log: seq<Event>  // what the publisher has accepted

    constructor (inner: CachingStore)
      requires inner.Valid() && inner.inner.Contents() == map[] && inner.inner.nextID == 0
      requires inner.redis.entries == map[]
      ensures Valid() && this.inner == inner && Abs() == Stack(map[], 0, map[], [])
    {
      this.inner := inner;
      this.log := [];
    }

    ghost predicate Valid()
      reads this, inner.inner, inner.redis, inner.inner.orders.Values
    {
      inner.Valid()
    }

    ghost function Abs(): Stack
      reads this, inner.inner, inner.redis, inner.inner.orders.Values
    {
      Stack(inner.inner.Contents(), inner.inner.nextID, inner.redis.entries, log)
    }

    method Emit(ev: Event, env: Conduct)
      modifies this`log
      ensures log == old(log) + Emitted(env, ev)
    {
      if env.published(ev.orderID) {
        log := log + [ev];
      }
    }

    method Create(customerID: string, items: seq<Item>, at: int, env: Conduct) returns (o: Order)
      requires Valid()
      modifies this, inner.inner, inner.redis
      ensures Valid() && fresh(inner.inner.orders.Values - old(inner.inner.orders.Values))
      ensures StackStep(old(Abs()), StackSpec.Create(customerID, items, at), env, Abs())
      ensures StackResponse(old(Abs()), StackSpec.Create(customerID, items, at), env) == Created(o)
      ensures InsertsExactly(old(inner.inner.Contents()), inner.inner.Contents(), o, customerID, items, at)
      ensures log == old(log) + if env.published(o.id) then [Event(EventCreated, o.id, customerID, Pending)] else []
    {
      o := inner.inner.Create(customerID, items, at);
      inner.redis.Decay(env);
      Emit(Event(EventCreated, o.id, o.customerID, o.status), env);
    }

    method Get(id: string, env: Conduct) returns (r: Result<Order>)
      requires Valid()
      modifies inner.redis
      ensures Valid()
      ensures StackStep(old(Abs()), StackSpec.Get(id), env, Abs())
      ensures StackResponse(old(Abs()), StackSpec.Get(id), env) == Got(r)
    {
      r := inner.Get(id, env);
    }

    method ConfirmPending(id: string, at: int, env: Conduct) returns (r: Result<bool>)
      requires Valid()
      modifies this`log, inner.inner.orders.Values, inner.redis
      ensures Valid() && inner.inner.orders == old(inner.inner.orders)
      ensures StackStep(old(Abs()), StackSpec.ConfirmPending(id, at), env, Abs())
      ensures StackResponse(old(Abs()), StackSpec.ConfirmPending(id, at), env) == Confirmation(r)
      ensures ConfirmsExactly(old(inner.inner.Contents()), inner.inner.Contents(), id, at, r)
      ensures log == old(log) +
        if r == Ok(true) && env.published(id) then [Event(EventConfirmed, id, "", Confirmed)] else []
    {
      r := inner.ConfirmPending(id, at, env);
      if r == Ok(true) {
        Emit(ConfirmedEvent(id), env);
      }
    }

    method CancelStalePending(cutoff: int, clock: string -> int, env: Conduct) returns (ids: seq<string>)
      requires Valid()
      modifies this`log, inner.inner.orders.Values, inner.redis
      ensures Valid() && inner.inner.orders == old(inner.inner.orders)
      ensures StackStep(old(Abs()), StackSpec.CancelStalePending(cutoff, clock), env, Abs())
      ensures NoDuplicates(ids) && log == old(log) + CanceledEvents(ids, env)
      ensures SweepsExactly(old(inner.inner.Contents()), inner.inner.Contents(), ids, cutoff, clock)
      ensures StackResponse(old(Abs()), StackSpec.CancelStalePending(cutoff, clock), env) == Cancellation(Elements(ids))
    {
      ids := inner.CancelStalePending(cutoff, clock, env);
      EmitCanceled(ids, env);
      assert Elements(ids) == StaleIDs(old(inner.inner.Contents()), cutoff);
    }

    method EmitCanceled(ids: seq<string>, env: Conduct)
      modifies this`log
      ensures log == old(log) + CanceledEvents(ids, env)
    {
      for i := 0 to |ids|
        invariant log + CanceledEvents(ids[i..], env) == old(log) + CanceledEvents(ids, env)
      {
        assert ids[i..][1..] == ids[i + 1..];
        Emit(CanceledEvent(ids[i]), env);
      }
      assert ids[|ids|..] == [];
    }

    method List(env: Conduct) returns (orders: seq<Order>)
      requires Valid()
      modifies inner.redis
      ensures Valid() && NoDuplicates(orders)
      ensures StackStep(old(Abs()), StackSpec.List, env, Abs())
      ensures StackResponse(old(Abs()), StackSpec.List, env) == Listed(Elements(orders))
    {
      orders := inner.inner.List();
      inner.redis.Decay(env);
      assert Elements(orders) == old(inner.inner.Contents()).Values;
    }
  }

  /** Drives a new stack of objects through a whole call sequence: every answer is the bare store's. */
  method Serve(ops: seq<Op>, envs: seq<Conduct>) returns (answers: seq<Response>)
    requires |ops| == |envs| && Dependable(envs)
    ensures |answers| == |ops|
    ensures forall i | 0 <= i < |ops| :: answers[i] == BareAnswer(ops, i)
  {
    var memory := new InMemoryStore();
    var redis := new Redis();
    var cache := new CachingStore(memory, redis);
    var stack := new PublishingStore(cache);
    ghost var run;
    answers, run := CallAll(stack, ops, envs);
    assert StackRun(run, ops, envs);
    forall i | 0 <= i < |ops| ensures answers[i] == BareAnswer(ops, i) {
      StackRefinesBareStore(run, ops, envs, i);
    }
  }

  ghost predicate Served(run: seq<Stack>, ops: seq<Op>, envs: seq<Conduct>, answers: seq<Response>, n: nat)
    requires n <= |ops| == |envs|
  {
    && |run| == n + 1 && |answers| == n
    && forall i | 0 <= i < n ::
      StackStep(run[i], ops[i], envs[i], run[i + 1]) && answers[i] == StackResponse(run[i], ops[i], envs[i])
  }

  method CallAll(stack: PublishingStore, ops: seq<Op>, envs: seq<Conduct>)
    returns (answers: seq<Response>, ghost run: seq<Stack>)
    requires stack.Valid() && |ops| == |envs|
    modifies stack, stack.inner.inner, stack.inner.redis, stack.inner.inner.orders.Values
    ensures Served(run, ops, envs, answers, |ops|) && run[0] == old(stack.Abs())
  {
    answers, run := [], [stack.Abs()];
    for i := 0 to |ops|
      invariant stack.Valid() && fresh(stack.inner.inner.orders.Values - old(stack.inner.inner.orders.Values))
      invariant Served(run, ops, envs, answers, i) && run[0] == old(stack.Abs()) && run[i] == stack.Abs()
    {
      var answer := Call(stack, ops[i], envs[i]);
      answers, run := answers + [answer], run + [stack.Abs()];
    }
  }

  method Call(stack: PublishingStore, op: Op, env: Conduct) returns (answer: Response)
    requires stack.Valid()
    modifies stack, stack.inner.inner, stack.inner.redis, stack.inner.inner.orders.Values
    ensures stack.Valid()
    ensures fresh(stack.inner.inner.orders.Values - old(stack.inner.inner.orders.Values))
    ensures StackStep(old(stack.Abs()), op, env, stack.Abs())
    ensures answer == StackResponse(old(stack.Abs()), op, env)
  {
    match op
    case Create(customerID, items, at) =>
      var o := stack.Create(customerID, items, at, env);
      answer := Created(o);
    case Get(id) =>
      var r := stack.Get(id, env);
      answer := Got(r);
    case List =>
      var orders := stack.List(env);
      answer := Listed(Elements(orders));
    case ConfirmPending(id, at) =>
      var r := stack.ConfirmPending(id, at, env);
      answer := Confirmation(r);
    case CancelStalePending(cutoff, clock) =>
      var ids := stack.CancelStalePending(cutoff, clock, env);
      answer := Cancellation(Elements(ids));
  }
}
