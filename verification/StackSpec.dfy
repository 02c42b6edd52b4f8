/** What one uninterrupted call does to the stack Publishing(Caching(store)), as
  * functions of the state before, and what that means to the caller: under the
  * stated Redis conduct the stack is indistinguishable from the bare store.
  */
module StackSpec {
  import opened Sequences
  import opened Orders

  datatype EventType = EventCreated | EventConfirmed | EventCanceled

  datatype Event = Event(kind: EventType, orderID: string, customerID: string, status: Status)

  /** The bytes of a cache entry: the JSON of an order, or something that does not decode to one. */
  datatype Payload = Json(order: Order) | Undecodable

  type Cache = map<string, Payload>

  function CacheKey(id: string): string {
    "order:" + id
  }

  /** How Redis and the publisher behave during one call. A command that reports an error may or may
    * not have taken effect, so only the effect is recorded for writes.
    */
  datatype Conduct = Conduct(
    connected: bool,          // Client() is not nil
    lost: set<string>,        // keys expired or evicted by now
    garbled: set<string>,     // keys whose payload has become undecodable
    readOk: bool,
    setApplied: bool,
    delApplied: bool,
    published: string -> bool)  // whether the event about an id reaches the log

  datatype Stack = Stack(store: Store, nextID: nat, cache: Cache, log: seq<Event>)

  datatype Op =
    | Create(customerID: string, items: seq<Item>, at: int)
    | Get(id: string)
    | List
    | ConfirmPending(id: string, at: int)
    | CancelStalePending(cutoff: int, clock: string -> int)

  datatype Response =
    | Created(order: Order)
    | Got(found: Result<Order>)
    | Listed(orders: set<Order>)
    | Confirmation(confirmed: Result<bool>)
    | Cancellation(ids: set<string>)

  // ---------- The cache around one call ----------

  /** The entries still there when the call reaches Redis. */
  function Decayed(cache: Cache, env: Conduct): Cache {
    map key | key in cache && key !in env.lost :: if key in env.garbled then Undecodable else cache[key]
  }

  function CacheRead(cache: Cache, id: string, env: Conduct): Result<Order> {
    var seen := Decayed(cache, env);
    if env.connected && env.readOk && CacheKey(id) in seen && seen[CacheKey(id)].Json?
    then Ok(seen[CacheKey(id)].order) else Err(OrderNotFound)
  }

  function GetResult(st: Store, cache: Cache, id: string, env: Conduct): Result<Order> {
    if CacheRead(cache, id, env).Ok? then CacheRead(cache, id, env) else Lookup(st, id)
  }

  function GetCache(st: Store, cache: Cache, id: string, env: Conduct): Cache {
    var seen := Decayed(cache, env);
    if env.connected && CacheRead(cache, id, env).Err? && id in st && env.setApplied
    then seen[CacheKey(id) := Json(st[id])] else seen
  }

  function Invalidated(cache: Cache, ids: set<string>, env: Conduct): Cache {
    var seen := Decayed(cache, env);
    if env.connected && env.delApplied then seen - (set id | id in ids :: CacheKey(id)) else seen
  }

  // ---------- The event log around one call ----------

  function Emitted(env: Conduct, ev: Event): seq<Event> {
    if env.published(ev.orderID) then [ev] else []
  }

  function ConfirmedEvent(id: string): Event {
    Event(EventConfirmed, id, "", Confirmed)
  }

  function CanceledEvent(id: string): Event {
    Event(EventCanceled, id, "", Canceled)
  }

  function CanceledEvents(ids: seq<string>, env: Conduct): seq<Event> {
    if ids == [] then [] else Emitted(env, CanceledEvent(ids[0])) + CanceledEvents(ids[1..], env)
  }

  /** The place of the k-th id's event among those published: the number of published ids before it. */
  function PublishedBefore(ids: seq<string>, env: Conduct, k: nat): nat
    requires k <= |ids|
  {
    if k == 0 then 0 else PublishedBefore(ids, env, k - 1) + if env.published(ids[k - 1]) then 1 else 0
  }

  lemma {:induction false} PublishedBeforeTail(ids: seq<string>, env: Conduct, k: nat)
    requires 1 <= k <= |ids|
    ensures PublishedBefore(ids, env, k) ==
            (if env.published(ids[0]) then 1 else 0) + PublishedBefore(ids[1..], env, k - 1)
  {
    if k > 1 {
      PublishedBeforeTail(ids, env, k - 1);
    }
  }

  /** A sweep publishes one event per id, in order, less exactly those the publisher loses. */
  lemma {:induction false} EachCanceledOnce(ids: seq<string>, env: Conduct)
    ensures |CanceledEvents(ids, env)| == PublishedBefore(ids, env, |ids|)
    ensures forall k | 0 <= k < |ids| && env.published(ids[k]) ::
      && PublishedBefore(ids, env, k) < |CanceledEvents(ids, env)|
      && CanceledEvents(ids, env)[PublishedBefore(ids, env, k)] == Event(EventCanceled, ids[k], "", Canceled)
  {
    if ids != [] {
      EachCanceledOnce(ids[1..], env);
      PublishedBeforeTail(ids, env, |ids|);
      forall k | 0 <= k < |ids| && env.published(ids[k]) ensures
        && PublishedBefore(ids, env, k) < |CanceledEvents(ids, env)|
        && CanceledEvents(ids, env)[PublishedBefore(ids, env, k)] == Event(EventCanceled, ids[k], "", Canceled)
      {
        if k > 0 {
          PublishedBeforeTail(ids, env, k);
          assert ids[k] == ids[1..][k - 1];
        }
      }
    }
  }

  // ---------- One call on the stack, and on the bare store ----------

  function BareStore(st: Store, n: nat, op: Op): (Store, nat) {
    match op
    case Create(customerID, items, at) =>
      (st[OrderID(n + 1) := NewOrder(OrderID(n + 1), customerID, items, at)], n + 1)
    case ConfirmPending(id, at) => (ConfirmedStore(st, id, at), n)
    case CancelStalePending(cutoff, clock) => (SweptStore(st, cutoff, clock), n)
    case _ => (st, n)
  }

  function BareResponse(st: Store, n: nat, op: Op): Response {
    match op
    case Create(customerID, items, at) => Created(NewOrder(OrderID(n + 1), customerID, items, at))
    case Get(id) => Got(Lookup(st, id))
    case List => Listed(st.Values)
    case ConfirmPending(id, _) => Confirmation(ConfirmResult(st, id))
    case CancelStalePending(cutoff, _) => Cancellation(StaleIDs(st, cutoff))
  }

  function StackCache(s: Stack, op: Op, env: Conduct): Cache {
    match op
    case Get(id) => GetCache(s.store, s.cache, id, env)
    case ConfirmPending(id, _) =>
      if id in s.store then Invalidated(s.cache, {id}, env) else Decayed(s.cache, env)
    case CancelStalePending(cutoff, _) => Invalidated(s.cache, StaleIDs(s.store, cutoff), env)
    case _ => Decayed(s.cache, env)
  }

  function StackResponse(s: Stack, op: Op, env: Conduct): Response {
    match op
    case Get(id) => Got(GetResult(s.store, s.cache, id, env))
    case _ => BareResponse(s.store, s.nextID, op)
  }

  /** The log after the call; a sweep publishes in the order it found the ids. */
  ghost predicate StackLog(s: Stack, op: Op, env: Conduct, log': seq<Event>) {
    match op
    case Create(customerID, _, _) =>
      log' == s.log + Emitted(env, Event(EventCreated, OrderID(s.nextID + 1), customerID, Pending))
    case ConfirmPending(id, _) =>
      log' == s.log + if ConfirmResult(s.store, id) == Ok(true) then Emitted(env, ConfirmedEvent(id)) else []
    case CancelStalePending(cutoff, _) =>
      exists ids :: Enumerates(ids, StaleIDs(s.store, cutoff)) && log' == s.log + CanceledEvents(ids, env)
    case _ => log' == s.log
  }

  ghost predicate StackStep(s: Stack, op: Op, env: Conduct, s': Stack) {
    && (s'.store, s'.nextID) == BareStore(s.store, s.nextID, op)
    && s'.cache == StackCache(s, op, env)
    && StackLog(s, op, env, s'.log)
  }

  // ---------- Agreement with the bare store ----------

  /** Every entry that decodes is the order as the store has it. */
  ghost predicate Coherent(st: Store, cache: Cache) {
    forall id | CacheKey(id) in cache && cache[CacheKey(id)].Json? ::
      id in st && cache[CacheKey(id)].order == st[id]
  }

  ghost predicate FreshIDs(st: Store, n: nat) {
    forall k | k > n :: OrderID(k) !in st
  }

  lemma CacheKeyInjective(a: string, b: string)
    ensures CacheKey(a) == CacheKey(b) <==> a == b
  {
    assert CacheKey(a)[6..] == a && CacheKey(b)[6..] == b;
  }

  lemma InvalidatedEntries(cache: Cache, ids: set<string>, env: Conduct, id: string)
    requires CacheKey(id) in Invalidated(cache, ids, env)
    ensures CacheKey(id) in cache
    ensures env.connected && env.delApplied ==> id !in ids
    ensures Invalidated(cache, ids, env)[CacheKey(id)].Json? ==>
      Invalidated(cache, ids, env)[CacheKey(id)] == cache[CacheKey(id)]
  {
  }

  // ---------- Exactly when a call keeps the cache coherent ----------

  /** The orders a call decides. */
  function Changed(st: Store, op: Op): set<string> {
    match op
    case ConfirmPending(id, _) => if ConfirmResult(st, id) == Ok(true) then {id} else {}
    case CancelStalePending(cutoff, _) => StaleIDs(st, cutoff)
    case _ => {}
  }

  predicate Decodes(cache: Cache, id: string) {
    CacheKey(id) in cache && cache[CacheKey(id)].Json?
  }

  /** The call's delete takes effect, or there is nothing to delete: no entry of an order that it
    * decides is there and decodes.
    */
  ghost predicate Careful(s: Stack, op: Op, env: Conduct) {
    (env.connected && env.delApplied) || forall id | id in Changed(s.store, op) :: !Decodes(Decayed(s.cache, env), id)
  }

  lemma EntryAfter(s: Stack, op: Op, env: Conduct, s': Stack, id: string)
    requires Coherent(s.store, s.cache) && FreshIDs(s.store, s.nextID) && StackStep(s, op, env, s')
    requires Careful(s, op, env) && Decodes(s'.cache, id)
    ensures id in s'.store && s'.cache[CacheKey(id)].order == s'.store[id]
  {
    match op
    case Get(other) => CacheKeyInjective(id, other);
    case Create(_, _, _) => assert OrderID(s.nextID + 1) !in s.store;
    case List =>
    case ConfirmPending(other, _) =>
      if other in s.store {
        InvalidatedEntries(s.cache, {other}, env, id);
      }
    case CancelStalePending(cutoff, _) => InvalidatedEntries(s.cache, StaleIDs(s.store, cutoff), env, id);
  }

  /** For every call, whatever Redis does: the cache is left coherent exactly when the call is careful. */
  lemma StepCoherentIff(s: Stack, op: Op, env: Conduct, s': Stack)
    requires Coherent(s.store, s.cache) && FreshIDs(s.store, s.nextID) && StackStep(s, op, env, s')
    ensures Coherent(s'.store, s'.cache) <==> Careful(s, op, env)
  {
    if Careful(s, op, env) {
      forall id | Decodes(s'.cache, id) ensures id in s'.store && s'.cache[CacheKey(id)].order == s'.store[id] {
        EntryAfter(s, op, env, s', id);
      }
    } else {
      var id :| id in Changed(s.store, op) && Decodes(Decayed(s.cache, env), id);
      assert s'.cache[CacheKey(id)] == s.cache[CacheKey(id)] && s'.store[id] != s.store[id];
    }
  }

  lemma FreshNext(s: Stack, op: Op, env: Conduct, s': Stack)
    requires FreshIDs(s.store, s.nextID) && StackStep(s, op, env, s')
    ensures FreshIDs(s'.store, s'.nextID)
  {
    forall k | k > s'.nextID ensures OrderID(k) !in s'.store {
      OrderIDInjective(k, s.nextID + 1);
      assert OrderID(k) !in s.store;
    }
  }

  // ---------- Under dependable deletes ----------

  /** Deletes take effect whenever there is a client, and a client, once there, stays. */
  ghost predicate Dependable(envs: seq<Conduct>) {
    && (forall i | 0 <= i < |envs| && envs[i].connected :: envs[i].delApplied)
    && (forall i, j | 0 <= i < j < |envs| && envs[i].connected :: envs[j].connected)
  }

  /** One call from a coherent state: the bare store's answer, and coherence again. A call
    * made without a client starts from an empty cache: nothing has been cached before there was one.
    */
  lemma StepAgrees(s: Stack, op: Op, env: Conduct, s': Stack)
    requires Coherent(s.store, s.cache) && FreshIDs(s.store, s.nextID) && StackStep(s, op, env, s')
    requires if env.connected then env.delApplied else s.cache == map[]
    ensures StackResponse(s, op, env) == BareResponse(s.store, s.nextID, op)
    ensures Coherent(s'.store, s'.cache) && FreshIDs(s'.store, s'.nextID)
    ensures !env.connected ==> s'.cache == map[]
  {
    FreshNext(s, op, env, s');
    StepCoherentIff(s, op, env, s');
  }

  // ---------- Whole call sequences ----------

  /** run[i] is the stack before call i. */
  ghost predicate StackRun(run: seq<Stack>, ops: seq<Op>, envs: seq<Conduct>) {
    && |run| == |ops| + 1 == |envs| + 1
    && run[0] == Stack(map[], 0, map[], [])
    && forall i | 0 <= i < |ops| :: StackStepAt(run, ops, envs, i)
  }

  ghost predicate StackStepAt(run: seq<Stack>, ops: seq<Op>, envs: seq<Conduct>, i: nat)
    requires i < |ops| == |envs| && |run| == |ops| + 1
  {
    StackStep(run[i], ops[i], envs[i], run[i + 1])
  }

  /** The bare store before each call of the same sequence, from empty. */
  ghost function BareAfter(ops: seq<Op>): (Store, nat) {
    if ops == [] then (map[], 0)
    else var (st, n) := BareAfter(ops[..|ops| - 1]); BareStore(st, n, ops[|ops| - 1])
  }

  ghost function BareAnswer(ops: seq<Op>, i: nat): Response
    requires i < |ops|
  {
    var (st, n) := BareAfter(ops[..i]); BareResponse(st, n, ops[i])
  }

  /** Whatever the cache does, the store is the bare store. */
  lemma {:induction false} StoreIsBare(run: seq<Stack>, ops: seq<Op>, envs: seq<Conduct>, i: nat)
    requires StackRun(run, ops, envs) && i <= |ops|
    ensures (run[i].store, run[i].nextID) == BareAfter(ops[..i]) && FreshIDs(run[i].store, run[i].nextID)
  {
    if i > 0 {
      StoreIsBare(run, ops, envs, i - 1);
      assert ops[..i][..i - 1] == ops[..i - 1];
      assert StackStepAt(run, ops, envs, i - 1);
      FreshNext(run[i - 1], ops[i - 1], envs[i - 1], run[i]);
    }
  }

  lemma {:induction false} StaysCoherent(run: seq<Stack>, ops: seq<Op>, envs: seq<Conduct>, i: nat)
    requires StackRun(run, ops, envs) && Dependable(envs) && i <= |ops|
    ensures Coherent(run[i].store, run[i].cache)
    ensures i < |envs| && !envs[i].connected ==> run[i].cache == map[]
  {
    if i > 0 {
      StaysCoherent(run, ops, envs, i - 1);
      StoreIsBare(run, ops, envs, i - 1);
      assert StackStepAt(run, ops, envs, i - 1);
      StepAgrees(run[i - 1], ops[i - 1], envs[i - 1], run[i]);
    }
  }

  /** Every call of every sequence answers as the bare store would have. */
  lemma StackRefinesBareStore(run: seq<Stack>, ops: seq<Op>, envs: seq<Conduct>, i: nat)
    requires StackRun(run, ops, envs) && Dependable(envs) && i < |ops|
    ensures StackResponse(run[i], ops[i], envs[i]) == BareAnswer(ops, i)
  {
    StaysCoherent(run, ops, envs, i);
    StoreIsBare(run, ops, envs, i);
    assert StackStepAt(run, ops, envs, i);
    StepAgrees(run[i], ops[i], envs[i], run[i + 1]);
  }

  // ---------- What is cached ----------

  /** A Get that finds the order in the store and sets it spares the next Get the store: whatever the
    * store then holds, the answer comes from the cache. An order that is not found is not cached.
    */
  lemma NextGetNeedsNoStore(st: Store, cache: Cache, id: string, env: Conduct, later: Store)
    ensures GetResult(st, cache, id, env).Ok? && env.connected && env.setApplied ==>
      GetResult(later, GetCache(st, cache, id, env), id, UNDISTURBED) == GetResult(st, cache, id, env)
    ensures id !in st ==> GetCache(st, cache, id, env) == Decayed(cache, env)
  {
  }

  // ---------- Coherence is exactly what callers can observe ----------

  const UNDISTURBED := Conduct(true, {}, {}, true, true, true, (id: string) => true)

  lemma CoherentIffTransparent(st: Store, cache: Cache)
    ensures Coherent(st, cache) <==> forall id, env :: GetResult(st, cache, id, env) == Lookup(st, id)
  {
    if forall id, env :: GetResult(st, cache, id, env) == Lookup(st, id) {
      forall id | CacheKey(id) in cache && cache[CacheKey(id)].Json?
        ensures id in st && cache[CacheKey(id)].order == st[id]
      {
        assert GetResult(st, cache, id, UNDISTURBED) == Ok(cache[CacheKey(id)].order);
      }
    }
  }

  // ---------- Exactly when the stack refines the store ----------

  /** A Get at moment i of the run, however Redis behaves, would find what the bare store holds. */
  ghost predicate TransparentAt(run: seq<Stack>, ops: seq<Op>, i: nat)
    requires i < |run| && i <= |ops|
  {
    forall id, env :: GetResult(run[i].store, run[i].cache, id, env) == Lookup(BareAfter(ops[..i]).0, id)
  }

  ghost predicate CarefulAt(run: seq<Stack>, ops: seq<Op>, envs: seq<Conduct>, i: nat)
    requires i < |run| && i < |ops| && i < |envs|
  {
    Careful(run[i], ops[i], envs[i])
  }

  ghost predicate CoherentAt(run: seq<Stack>, i: nat)
    requires i < |run|
  {
    Coherent(run[i].store, run[i].cache)
  }

  lemma CoherentNextIff(run: seq<Stack>, ops: seq<Op>, envs: seq<Conduct>, i: nat)
    requires StackRun(run, ops, envs) && i < |ops| && CoherentAt(run, i)
    ensures CoherentAt(run, i + 1) <==> CarefulAt(run, ops, envs, i)
  {
    StoreIsBare(run, ops, envs, i);
    assert StackStepAt(run, ops, envs, i);
    StepCoherentIff(run[i], ops[i], envs[i], run[i + 1]);
  }

  ghost predicate CoherentUpTo(run: seq<Stack>, n: nat)
    requires n < |run|
  {
    forall i: nat | i <= n :: CoherentAt(run, i)
  }

  ghost predicate CarefulUpTo(run: seq<Stack>, ops: seq<Op>, envs: seq<Conduct>, n: nat)
    requires n < |run| && n <= |ops| && n <= |envs|
  {
    forall i: nat | i < n :: CarefulAt(run, ops, envs, i)
  }

  lemma {:induction false} CoherentWhileCareful(run: seq<Stack>, ops: seq<Op>, envs: seq<Conduct>, n: nat)
    requires StackRun(run, ops, envs) && n <= |ops|
    ensures CoherentUpTo(run, n) <==> CarefulUpTo(run, ops, envs, n)
  {
    if n > 0 {
      CoherentWhileCareful(run, ops, envs, n - 1);
      assert CoherentUpTo(run, n) <==> CoherentUpTo(run, n - 1) && CoherentAt(run, n);
      assert CarefulUpTo(run, ops, envs, n) <==> CarefulUpTo(run, ops, envs, n - 1) && CarefulAt(run, ops, envs, n - 1);
      if CoherentAt(run, n - 1) {
        CoherentNextIff(run, ops, envs, n - 1);
      }
    }
  }

  /** Of every call sequence, under any conduct of Redis: the cache can never be told from the bare
    * store exactly when every call is careful.
    */
  lemma StackRefinesIff(run: seq<Stack>, ops: seq<Op>, envs: seq<Conduct>)
    requires StackRun(run, ops, envs)
    ensures (forall i: nat | i <= |ops| :: TransparentAt(run, ops, i))
            <==> forall i: nat | i < |ops| :: CarefulAt(run, ops, envs, i)
  {
    CoherentWhileCareful(run, ops, envs, |ops|);
    forall i: nat | i <= |ops| ensures TransparentAt(run, ops, i) <==> CoherentAt(run, i) {
      StoreIsBare(run, ops, envs, i);
      CoherentIffTransparent(run[i].store, run[i].cache);
    }
  }

  const LOST_DELETE := UNDISTURBED.(delApplied := false)

  /** The stacks around one lost delete: the order is created, read into the cache, and confirmed. */
  const FIRST := NewOrder(OrderID(1), "c", [], 0)
  const FIRST_CONFIRMED := FIRST.(status := Confirmed, updatedAt := 5)
  const CREATED := Stack(map[OrderID(1) := FIRST], 1, map[], [Event(EventCreated, OrderID(1), "c", Pending)])
  const CACHED := CREATED.(cache := map[CacheKey(OrderID(1)) := Json(FIRST)])
  const BEHIND := CACHED.(store := map[OrderID(1) := FIRST_CONFIRMED], log := CACHED.log + [ConfirmedEvent(OrderID(1))])

  lemma ReadIntoCache()
    ensures StackStep(Stack(map[], 0, map[], []), Create("c", [], 0), UNDISTURBED, CREATED)
    ensures StackStep(CREATED, Get(OrderID(1)), UNDISTURBED, CACHED)
  {
    assert Decayed(map[], UNDISTURBED) == map[];
  }

  lemma DeleteIsLost()
    ensures StackStep(CACHED, ConfirmPending(OrderID(1), 5), LOST_DELETE, BEHIND)
    ensures StackStep(BEHIND, Get(OrderID(1)), UNDISTURBED, BEHIND)
    ensures StackResponse(BEHIND, Get(OrderID(1)), UNDISTURBED) == Got(Ok(FIRST))
  {
    assert Decayed(CACHED.cache, UNDISTURBED) == Decayed(CACHED.cache, LOST_DELETE) == CACHED.cache;
    assert ConfirmedStore(CACHED.store, OrderID(1), 5) == BEHIND.store;
  }

  /** One lost delete: a confirmed order is still read as PENDING. */
  lemma LostDeleteShows() returns (run: seq<Stack>, ops: seq<Op>, envs: seq<Conduct>)
    ensures StackRun(run, ops, envs) && envs == [UNDISTURBED, UNDISTURBED, LOST_DELETE, UNDISTURBED]
    ensures |ops| == 4 && ops[2] == ConfirmPending(OrderID(1), 5) && ops[3] == Get(OrderID(1))
    ensures StackResponse(run[3], ops[3], envs[3]) == Got(Ok(FIRST))
    ensures BareAnswer(ops, 3) == Got(Ok(FIRST_CONFIRMED))
  {
    ops := [Create("c", [], 0), Get(OrderID(1)), ConfirmPending(OrderID(1), 5), Get(OrderID(1))];
    envs := [UNDISTURBED, UNDISTURBED, LOST_DELETE, UNDISTURBED];
    run := [Stack(map[], 0, map[], []), CREATED, CACHED, BEHIND, BEHIND];
    ReadIntoCache();
    DeleteIsLost();
    assert forall i | 0 <= i < 4 :: StackStepAt(run, ops, envs, i);
    StoreIsBare(run, ops, envs, 3);
  }
}
