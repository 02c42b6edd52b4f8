/** The stack Publishing(Caching(InMemory)) under concurrency: every Redis command, every
  * store access under the lock and every publish is one step, and the steps of different
  * calls interleave freely with expiry, eviction, corruption and failed commands.
  */
module OrderStack {
  import opened Sequences
  import opened Orders
  import opened StackSpec

  // ---------- State ----------

  datatype Snapshot = Snapshot(store: Store, time: int)

  /** A cache entry, with the moment it was set and the place in the history of the store
    * read its payload came from.
    */
  datatype Entry = Entry(payload: Payload, read: nat, at: int)

  datatype Origin = FromStore(read: nat) | FromCache(entry: Entry, at: int)

  /** Create copies the record without the lock, its status and its update time in either order. */
  datatype Half = StatusRead(status: Status, read: nat) | TimeRead(time: int, read: nat)

  /** Where a call stands. Finished calls stay in the map with their result. */
  datatype Call =
    // Create
    | Reserved(id: string, customerID: string, items: seq<Item>, since: int)  // id taken, not yet in the map
    | Inserted(id: string)                       // in the map, lock released
    | HalfCopied(id: string, half: Half)         // one of the record's mutable fields read back
    | Copied(order: Order, statusRead: nat, timeRead: nat)  // both, event not yet emitted
    | CreateDone(order: Order, statusRead: nat, timeRead: nat)
    // Get
    | Getting(id: string)                        // about to consult the cache
    | Missed(id: string, fill: bool)             // about to read the store
    | Filling(order: Order, read: nat)           // about to SET
    | GetDone(order: Order, origin: Origin)
    | GetFailed(id: string)
    // ConfirmPending
    | Confirming(id: string)
    | ConfirmInvalidating(id: string, won: bool)
    | ConfirmEmitting(id: string)
    | ConfirmDone(id: string, won: bool)
    | ConfirmFailed(id: string)
    // CancelStalePending
    | Sweeping(cutoff: int)
    | SweepInvalidating(ids: seq<string>)
    | SweepEmitting(ids: seq<string>, next: nat)
    | SweepDone(ids: seq<string>)

  datatype Logged = Logged(event: Event, caller: nat)

  /** The last three fields are history: every past store, and which call made and decided each order. */
  datatype Sys = Sys(
    ttl: int,
    reliable: bool,              // no publish ever fails
    nextID: nat,
    store: Store,
    cache: map<string, Entry>,   // by order id; CacheKey is injective
    now: int,
    calls: map<nat, Call>,
    log: seq<Logged>,
    hist: seq<Snapshot>,
    creator: map<string, nat>,
    winner: map<string, nat>)

  // ---------- Steps ----------

  datatype Action =
    | Tick(time: int) | Drop(id: string) | Garble(id: string)
    | Invoke(call: Call)
    | Reserve(customerID: string, items: seq<Item>) | Insert(stamp: int) | CopyStatus | CopyTime
    | NoClient | CacheHit | CacheMiss | InnerRead | Fill(applied: bool)
    | InnerConfirm | InnerSweep(clock: string -> int, found: seq<string>)
    | Invalidate(applied: bool) | Emit(accepted: bool)

  /** A SET without a positive expiration never expires. */
  predicate Expired(ttl: int, e: Entry, now: int) {
    ttl > 0 && now >= e.at + ttl
  }

  predicate Environmental(a: Action) {
    a.Tick? || a.Drop? || a.Garble?
  }

  /** When action a is possible; unless it is environmental it is a step of call c. */
  ghost predicate Enabled(s: Sys, a: Action, c: nat) {
    match a
    case Tick(time) => s.now <= time
    case Drop(_) => true
    case Garble(id) => id in s.cache
    case Invoke(call) => c !in s.calls && (call.Getting? || call.Confirming? || call.Sweeping?)
    case Reserve(_, _) => c !in s.calls
    case Insert(stamp) => c in s.calls && s.calls[c].Reserved? && s.calls[c].since <= stamp <= s.now
    case CopyStatus =>
      && c in s.calls && (s.calls[c].Inserted? || (s.calls[c].HalfCopied? && s.calls[c].half.TimeRead?))
      && s.calls[c].id in s.store
    case CopyTime =>
      && c in s.calls && (s.calls[c].Inserted? || (s.calls[c].HalfCopied? && s.calls[c].half.StatusRead?))
      && s.calls[c].id in s.store
    case NoClient => c in s.calls && s.calls[c].Getting?
    case CacheHit =>
      && c in s.calls && s.calls[c].Getting? && s.calls[c].id in s.cache
      && var e := s.cache[s.calls[c].id]; e.payload.Json? && !Expired(s.ttl, e, s.now)
    case CacheMiss => c in s.calls && s.calls[c].Getting?
    case InnerRead => c in s.calls && s.calls[c].Missed?
    case Fill(_) => c in s.calls && s.calls[c].Filling?
    case InnerConfirm => c in s.calls && s.calls[c].Confirming?
    case InnerSweep(_, found) =>
      c in s.calls && s.calls[c].Sweeping? && Enumerates(found, StaleIDs(s.store, s.calls[c].cutoff))
    case Invalidate(_) => c in s.calls && (s.calls[c].ConfirmInvalidating? || s.calls[c].SweepInvalidating?)
    case Emit(accepted) => c in s.calls && Emitting(s.calls[c]) && (s.reliable ==> accepted)
  }

  predicate Emitting(call: Call) {
    call.Copied? || call.ConfirmEmitting? || (call.SweepEmitting? && call.next < |call.ids|)
  }

  function NextCall(s: Sys, a: Action, c: nat): Call
    requires Enabled(s, a, c) && !Environmental(a)
  {
    match a
    case Invoke(call) => call
    case Reserve(customerID, items) => Reserved(OrderID(s.nextID + 1), customerID, items, s.now)
    case Insert(_) => Inserted(s.calls[c].id)
    case CopyStatus =>
      var o := s.store[s.calls[c].id];
      (match s.calls[c]
       case Inserted(id) => HalfCopied(id, StatusRead(o.status, |s.hist|))
       case HalfCopied(_, TimeRead(time, read)) => Copied(o.(updatedAt := time), |s.hist|, read))
    case CopyTime =>
      var o := s.store[s.calls[c].id];
      (match s.calls[c]
       case Inserted(id) => HalfCopied(id, TimeRead(o.updatedAt, |s.hist|))
       case HalfCopied(_, StatusRead(status, read)) => Copied(o.(status := status), read, |s.hist|))
    case NoClient => Missed(s.calls[c].id, false)
    case CacheHit => var e := s.cache[s.calls[c].id]; GetDone(e.payload.order, FromCache(e, s.now))
    case CacheMiss => Missed(s.calls[c].id, true)  // also a failed read, or an undecodable payload
    case InnerRead =>
      var Missed(id, fill) := s.calls[c];
      if id !in s.store then GetFailed(id)
      else if fill then Filling(s.store[id], |s.hist|)
      else GetDone(s.store[id], FromStore(|s.hist|))
    case Fill(_) => GetDone(s.calls[c].order, FromStore(s.calls[c].read))
    case InnerConfirm =>
      var id := s.calls[c].id;
      if id !in s.store then ConfirmFailed(id) else ConfirmInvalidating(id, s.store[id].status == Pending)
    case InnerSweep(_, found) => SweepInvalidating(found)
    case Invalidate(_) =>
      (match s.calls[c]
       case ConfirmInvalidating(id, won) => if won then ConfirmEmitting(id) else ConfirmDone(id, false)
       case SweepInvalidating(ids) => if ids == [] then SweepDone(ids) else SweepEmitting(ids, 0))
    case Emit(_) =>
      match s.calls[c]
      case Copied(o, statusRead, timeRead) => CreateDone(o, statusRead, timeRead)
      case ConfirmEmitting(id) => ConfirmDone(id, true)
      case SweepEmitting(ids, next) =>
        if next + 1 == |ids| then SweepDone(ids) else SweepEmitting(ids, next + 1)
  }

  function NextStore(s: Sys, a: Action, c: nat): Store
    requires Enabled(s, a, c)
  {
    match a
    case Insert(stamp) =>
      var Reserved(id, customerID, items, _) := s.calls[c];
      s.store[id := NewOrder(id, customerID, items, stamp)]
    case InnerConfirm => ConfirmedStore(s.store, s.calls[c].id, s.now)
    case InnerSweep(clock, _) => SweptStore(s.store, s.calls[c].cutoff, clock)
    case _ => s.store
  }

  ghost function NextCache(s: Sys, a: Action, c: nat): map<string, Entry>
    requires Enabled(s, a, c)
  {
    match a
    case Drop(id) => s.cache - {id}
    case Garble(id) => s.cache[id := s.cache[id].(payload := Undecodable)]
    case Fill(true) => s.cache[s.calls[c].order.id := Entry(Json(s.calls[c].order), s.calls[c].read, s.now)]
    case Invalidate(true) => s.cache - Affected(s.calls[c])
    case _ => s.cache
  }

  ghost function Affected(call: Call): set<string>
    requires call.ConfirmInvalidating? || call.SweepInvalidating?
  {
    if call.ConfirmInvalidating? then {call.id} else Elements(call.ids)
  }

  function Outgoing(call: Call): Event
    requires Emitting(call)
  {
    match call
    case Copied(o, _, _) => Event(EventCreated, o.id, o.customerID, o.status)
    case ConfirmEmitting(id) => ConfirmedEvent(id)
    case SweepEmitting(ids, next) => CanceledEvent(ids[next])
  }

  function NextLog(s: Sys, a: Action, c: nat): seq<Logged>
    requires Enabled(s, a, c)
  {
    if a == Emit(true) then s.log + [Logged(Outgoing(s.calls[c]), c)] else s.log
  }

  function NextWinner(s: Sys, a: Action, c: nat): map<string, nat>
    requires Enabled(s, a, c)
  {
    match a
    case InnerConfirm =>
      if ConfirmResult(s.store, s.calls[c].id) == Ok(true) then s.winner[s.calls[c].id := c] else s.winner
    case InnerSweep(_, _) => s.winner + map id | id in StaleIDs(s.store, s.calls[c].cutoff) :: c
    case _ => s.winner
  }

  /** One atomic step, field by field. The store as it now is joins the history. */
  ghost predicate Step(s: Sys, a: Action, c: nat, s': Sys) {
    && Enabled(s, a, c)
    && s'.ttl == s.ttl && s'.reliable == s.reliable
    && s'.calls == (if Environmental(a) then s.calls else s.calls[c := NextCall(s, a, c)])
    && s'.nextID == (if a.Reserve? then s.nextID + 1 else s.nextID)
    && s'.creator == (if a.Reserve? then s.creator[OrderID(s.nextID + 1) := c] else s.creator)
    && s'.now == (if a.Tick? then a.time else s.now)
    && s'.store == NextStore(s, a, c)
    && s'.cache == NextCache(s, a, c)
    && s'.log == NextLog(s, a, c)
    && s'.winner == NextWinner(s, a, c)
    && s'.hist == s.hist + [Snapshot(s'.store, s'.now)]
  }

  ghost predicate Init(s: Sys) {
    s == Sys(s.ttl, s.reliable, 0, map[], map[], s.now, map[], [], [Snapshot(map[], s.now)], map[], map[])
  }

  datatype Label = Label(action: Action, call: nat)

  ghost predicate StepAt(run: seq<Sys>, labels: seq<Label>, i: nat)
    requires i < |labels| && |run| == |labels| + 1
  {
    Step(run[i], labels[i].action, labels[i].call, run[i + 1])
  }

  ghost predicate Run(run: seq<Sys>, labels: seq<Label>) {
    && |run| == |labels| + 1 && Init(run[0])
    && forall i | 0 <= i < |labels| :: StepAt(run, labels, i)
  }

  // ---------- Orders and their history ----------

  /** The id a create call has taken. */
  function Issued(call: Call): Result<string> {
    match call
    case Reserved(id, _, _, _) => Ok(id)
    case Inserted(id) => Ok(id)
    case HalfCopied(id, _) => Ok(id)
    case Copied(o, _, _) => Ok(o.id)
    case CreateDone(o, _, _) => Ok(o.id)
    case _ => Err(OrderNotFound)
  }

  /** Ids are issued once, each order sits under its own id, and only inserted ids are in the store. */
  ghost predicate IDsOK(s: Sys) {
    && (forall id | id in s.store :: s.store[id].id == id)
    && (forall c | c in s.calls && Issued(s.calls[c]).Ok? ::
          var id := Issued(s.calls[c]).value; id in s.creator && s.creator[id] == c)
    && (forall id | id in s.creator :: s.creator[id] in s.calls && Issued(s.calls[s.creator[id]]) == Ok(id))
    && (forall id :: id in s.store <==> id in s.creator && !s.calls[s.creator[id]].Reserved?)
    && (forall k | k > s.nextID :: OrderID(k) !in s.creator)
  }

  ghost predicate HistOK(s: Sys) {
    && |s.hist| > 0 && s.hist[|s.hist| - 1] == Snapshot(s.store, s.now)
    && (forall i, j | 0 <= i <= j < |s.hist| :: s.hist[i].time <= s.hist[j].time)
    && (forall i, j | 0 <= i <= j < |s.hist| :: StoreEvolves(s.hist[i].store, s.hist[j].store))
  }


  /** The ids a call has decided: confirmed itself, or found in its sweep. */
  ghost function Decided(call: Call): set<string> {
    match call
    case ConfirmInvalidating(id, won) => if won then {id} else {}
    case ConfirmEmitting(id) => {id}
    case ConfirmDone(id, won) => if won then {id} else {}
    case SweepInvalidating(ids) => Elements(ids)
    case SweepEmitting(ids, _) => Elements(ids)
    case SweepDone(ids) => Elements(ids)
    case _ => {}
  }

  function Verdict(call: Call): Status {
    if call.SweepInvalidating? || call.SweepEmitting? || call.SweepDone? then Canceled else Confirmed
  }

  /** Of those, the ids whose event has been handed to the publisher. */
  ghost function Told(call: Call): set<string> {
    match call
    case ConfirmDone(id, won) => if won then {id} else {}
    case SweepEmitting(ids, next) => if next <= |ids| then Elements(ids[..next]) else {}
    case SweepDone(ids) => Elements(ids)
    case _ => {}
  }

  /** Call d has won the order, and the store bears its verdict. */
  ghost predicate WonBy(s: Sys, d: nat, id: string)
    requires d in s.calls
  {
    id in s.winner && s.winner[id] == d && id in s.store && s.store[id].status == Verdict(s.calls[d])
  }

  /** Each order is decided exactly when some call has won it, and then by that call alone. */
  ghost predicate WinsOK(s: Sys) {
    && (forall c, id | c in s.calls && id in Decided(s.calls[c]) :: WonBy(s, c, id))
    && (forall id | id in s.store && s.store[id].status != Pending ::
          id in s.winner && s.winner[id] in s.calls && id in Decided(s.calls[s.winner[id]]))
    && (forall c | c in s.calls :: SweepOK(s.calls[c]))
  }

  ghost predicate SweepOK(call: Call) {
    match call
    case SweepInvalidating(ids) => NoDuplicates(ids)
    case SweepEmitting(ids, next) => NoDuplicates(ids) && next < |ids|
    case _ => true
  }

  ghost predicate Version(hist: seq<Snapshot>, o: Order, read: nat) {
    read < |hist| && o.id in hist[read].store && hist[read].store[o.id] == o
  }

  /** o has its status from one moment of the history and its update time from another. */
  ghost predicate Mixed(hist: seq<Snapshot>, o: Order, statusRead: nat, timeRead: nat) {
    && statusRead < |hist| && o.id in hist[statusRead].store
    && timeRead < |hist| && o.id in hist[timeRead].store
    && o == hist[timeRead].store[o.id].(status := hist[statusRead].store[o.id].status)
  }

  ghost predicate EntryOK(s: Sys, e: Entry) {
    e.payload.Json? ==> Version(s.hist, e.payload.order, e.read) && s.hist[e.read].time <= e.at <= s.now
  }

  ghost predicate CallReadsOK(s: Sys, call: Call) {
    match call
    case HalfCopied(id, StatusRead(status, read)) =>
      read < |s.hist| && id in s.hist[read].store && s.hist[read].store[id].status == status
    case HalfCopied(id, TimeRead(time, read)) =>
      read < |s.hist| && id in s.hist[read].store && s.hist[read].store[id].updatedAt == time
    case Copied(o, statusRead, timeRead) => Mixed(s.hist, o, statusRead, timeRead)
    case CreateDone(o, statusRead, timeRead) => Mixed(s.hist, o, statusRead, timeRead)
    case Filling(o, read) => Version(s.hist, o, read)
    case GetDone(o, FromStore(read)) => Version(s.hist, o, read)
    case GetDone(o, FromCache(e, at)) =>
      e.payload == Json(o) && EntryOK(s, e) && e.at <= at <= s.now && !Expired(s.ttl, e, at)
    case _ => true
  }

  /** Everything read, cached or returned was in the store at the recorded moment. */
  ghost predicate ReadsOK(s: Sys) {
    && CacheOK(s, s.cache)
    && (forall c | c in s.calls :: CallReadsOK(s, s.calls[c]))
  }

  predicate Terminal(ev: Event) {
    ev.kind != EventCreated
  }

  /** A created event repeats the order that Create returns. */
  predicate Announces(ev: Event, o: Order) {
    ev.kind == EventCreated && ev.orderID == o.id && ev.customerID == o.customerID && ev.status == o.status
  }

  ghost predicate RecordOK(s: Sys, g: Logged) {
    && g.caller in s.calls
    && var call := s.calls[g.caller];
       if Terminal(g.event) then
         && g.event.orderID in Told(call) && g.event.status == Verdict(call)
         && g.event.kind == (if Verdict(call) == Confirmed then EventConfirmed else EventCanceled)
         && g.event.customerID == ""
       else call.CreateDone? && Announces(g.event, call.order)
  }

  ghost predicate InLog(log: seq<Logged>, id: string, terminal: bool) {
    exists i :: 0 <= i < |log| && log[i].event.orderID == id && Terminal(log[i].event) == terminal
  }

  ghost predicate AtMostOnce(log: seq<Logged>) {
    forall i, j | 0 <= i < j < |log| && log[i].event.orderID == log[j].event.orderID ::
      Terminal(log[i].event) != Terminal(log[j].event)
  }

  ghost predicate AllLogged(s: Sys, call: Call) {
    && (forall id | id in Told(call) :: InLog(s.log, id, true))
    && (call.CreateDone? ==> InLog(s.log, call.order.id, false))
  }

  /** Each order has at most one created and one terminal event, published by the call that made or won it. */
  ghost predicate LogOK(s: Sys) {
    && (forall i | 0 <= i < |s.log| :: RecordOK(s, s.log[i]))
    && AtMostOnce(s.log)
    && (s.reliable ==> forall c | c in s.calls :: AllLogged(s, s.calls[c]))
  }

  // ---------- Each invariant is kept by every step ----------

  ghost predicate SameIDs(s: Sys, s': Sys) {
    && s'.creator == s.creator && s'.nextID == s.nextID && s'.store.Keys == s.store.Keys
    && (forall id | id in s.store :: s'.store[id].id == s.store[id].id)
    && (forall d | d in s.calls ::
          d in s'.calls && Issued(s'.calls[d]) == Issued(s.calls[d]) && s'.calls[d].Reserved? == s.calls[d].Reserved?)
    && (forall d | d in s'.calls && Issued(s'.calls[d]).Ok? :: d in s.calls)
  }

  /** Only a create's first two steps change which ids are issued and which are in the store. */
  lemma IDsFrame(s: Sys, a: Action, c: nat, s': Sys)
    requires IDsOK(s) && Step(s, a, c, s') && !a.Reserve? && !a.Insert?
    ensures SameIDs(s, s')
  {
    if !Environmental(a) {
      SameIssue(s, a, c);
    }
  }

  lemma SameIssue(s: Sys, a: Action, c: nat)
    requires IDsOK(s) && Enabled(s, a, c) && !Environmental(a) && !a.Reserve? && !a.Insert?
    ensures Issued(NextCall(s, a, c)) == if c in s.calls then Issued(s.calls[c]) else Err(OrderNotFound)
    ensures !NextCall(s, a, c).Reserved? && (c in s.calls ==> !s.calls[c].Reserved?)
  {
  }

  lemma IDsCarry(s: Sys, s': Sys)
    requires IDsOK(s) && SameIDs(s, s')
    ensures IDsOK(s')
  {
  }

  lemma IDsReserve(s: Sys, a: Action, c: nat, s': Sys)
    requires IDsOK(s) && Step(s, a, c, s') && a.Reserve?
    ensures IDsOK(s')
  {
    assert OrderID(s.nextID + 1) !in s.creator;
    forall k | k > s'.nextID ensures OrderID(k) !in s'.creator {
      OrderIDInjective(k, s.nextID + 1);
    }
  }

  lemma IDsInsert(s: Sys, a: Action, c: nat, s': Sys)
    requires IDsOK(s) && Step(s, a, c, s') && a.Insert?
    ensures IDsOK(s')
  {
  }

  lemma IDsStep(s: Sys, a: Action, c: nat, s': Sys)
    requires IDsOK(s) && Step(s, a, c, s')
    ensures IDsOK(s')
  {
    if a.Reserve? {
      IDsReserve(s, a, c, s');
    } else if a.Insert? {
      IDsInsert(s, a, c, s');
    } else {
      IDsFrame(s, a, c, s');
      IDsCarry(s, s');
    }
  }

  lemma StoreStep(s: Sys, a: Action, c: nat, s': Sys)
    requires IDsOK(s) && Step(s, a, c, s')
    ensures StoreEvolves(s.store, s'.store)
  {
  }

  lemma HistGrows(s: Sys, s': Sys)
    requires HistOK(s) && s'.hist == s.hist + [Snapshot(s'.store, s'.now)]
    requires StoreEvolves(s.store, s'.store) && s.now <= s'.now
    ensures HistOK(s')
  {
    forall i | 0 <= i < |s.hist| ensures StoreEvolves(s.hist[i].store, s'.store) {
      assert StoreEvolves(s.hist[i].store, s.hist[|s.hist| - 1].store);
    }
  }

  lemma HistStep(s: Sys, a: Action, c: nat, s': Sys)
    requires IDsOK(s) && HistOK(s) && Step(s, a, c, s')
    ensures HistOK(s')
  {
    StoreStep(s, a, c, s');
    HistGrows(s, s');
  }

  lemma SameDecided(s: Sys, a: Action, c: nat)
    requires WinsOK(s) && Enabled(s, a, c) && !Environmental(a) && !a.InnerConfirm? && !a.InnerSweep?
    ensures Decided(NextCall(s, a, c)) == if c in s.calls then Decided(s.calls[c]) else {}
    ensures c in s.calls && Decided(s.calls[c]) != {} ==> Verdict(NextCall(s, a, c)) == Verdict(s.calls[c])
    ensures SweepOK(NextCall(s, a, c))
  {
  }

  /** Call c decides exactly the given pending orders. */
  ghost predicate Decides(s: Sys, c: nat, won: set<string>, s': Sys) {
    && c in s.calls && c in s'.calls && s'.calls == s.calls[c := s'.calls[c]]
    && Decided(s.calls[c]) == {} && Decided(s'.calls[c]) == won && SweepOK(s'.calls[c])
    && s'.store.Keys == s.store.Keys && won <= s.store.Keys
    && (forall id | id in won :: s.store[id].status == Pending && s'.store[id].status == Verdict(s'.calls[c]))
    && (forall id | id in s.store && id !in won :: s'.store[id] == s.store[id])
    && (forall id :: id in s'.winner <==> id in s.winner || id in won)
    && (forall id | id in s'.winner :: s'.winner[id] == if id in won then c else s.winner[id])
  }

  lemma WinsKept(s: Sys, c: nat, won: set<string>, s': Sys)
    requires WinsOK(s) && Decides(s, c, won, s')
    ensures WinsOK(s')
  {
  }

  lemma ConfirmDecides(s: Sys, id: string, c: nat, s': Sys)
    requires c in s.calls && s.calls[c] == Confirming(id) && ConfirmResult(s.store, id) == Ok(true)
    requires s'.calls == s.calls[c := ConfirmInvalidating(id, true)]
    requires s'.store == ConfirmedStore(s.store, id, s.now) && s'.winner == s.winner[id := c]
    ensures Decides(s, c, {id}, s')
  {
  }

  lemma WinsConfirm(s: Sys, c: nat, s': Sys)
    requires WinsOK(s) && Step(s, InnerConfirm, c, s') && ConfirmResult(s.store, s.calls[c].id) == Ok(true)
    ensures WinsOK(s')
  {
    ConfirmDecides(s, s.calls[c].id, c, s');
    WinsKept(s, c, {s.calls[c].id}, s');
  }

  lemma SweepDecides(s: Sys, cutoff: int, clock: string -> int, found: seq<string>, c: nat, s': Sys)
    requires c in s.calls && s.calls[c] == Sweeping(cutoff) && Enumerates(found, StaleIDs(s.store, cutoff))
    requires s'.calls == s.calls[c := SweepInvalidating(found)] && s'.store == SweptStore(s.store, cutoff, clock)
    requires s'.winner == s.winner + map id | id in StaleIDs(s.store, cutoff) :: c
    ensures Decides(s, c, StaleIDs(s.store, cutoff), s')
  {
  }

  lemma WinsSweep(s: Sys, a: Action, c: nat, s': Sys)
    requires a.InnerSweep? && WinsOK(s) && Step(s, a, c, s')
    ensures WinsOK(s')
  {
    SweepDecides(s, s.calls[c].cutoff, a.clock, a.found, c, s');
    WinsKept(s, c, StaleIDs(s.store, s.calls[c].cutoff), s');
  }

  ghost predicate SameWins(s: Sys, s': Sys) {
    && s'.winner == s.winner
    && (forall d | d in s.calls :: d in s'.calls && Decided(s'.calls[d]) == Decided(s.calls[d]))
    && (forall d | d in s'.calls && Decided(s'.calls[d]) != {} ::
          d in s.calls && Decided(s'.calls[d]) == Decided(s.calls[d]) && Verdict(s'.calls[d]) == Verdict(s.calls[d]))
    && (forall d | d in s'.calls :: SweepOK(s'.calls[d]))
    && (forall id | id in s.store :: id in s'.store && s'.store[id] == s.store[id])
    && (forall id | id in s'.store && id !in s.store :: s'.store[id].status == Pending)
  }

  lemma ConfirmLoses(s: Sys, c: nat, s': Sys)
    requires WinsOK(s) && Step(s, InnerConfirm, c, s') && ConfirmResult(s.store, s.calls[c].id) != Ok(true)
    ensures SameWins(s, s')
  {
  }

  /** No other step changes what is decided. */
  lemma WinsFrame(s: Sys, a: Action, c: nat, s': Sys)
    requires IDsOK(s) && WinsOK(s) && Step(s, a, c, s') && !a.InnerConfirm? && !a.InnerSweep?
    ensures SameWins(s, s')
  {
    if !Environmental(a) {
      SameDecided(s, a, c);
    }
    if a.Insert? {
      assert Issued(s.calls[c]).Ok?;
    }
  }

  lemma WinsCarry(s: Sys, s': Sys)
    requires WinsOK(s) && SameWins(s, s')
    ensures WinsOK(s')
  {
  }

  lemma WinsStep(s: Sys, a: Action, c: nat, s': Sys)
    requires IDsOK(s) && WinsOK(s) && Step(s, a, c, s')
    ensures WinsOK(s')
  {
    if a.InnerConfirm? {
      if ConfirmResult(s.store, s.calls[c].id) == Ok(true) {
        WinsConfirm(s, c, s');
      } else {
        ConfirmLoses(s, c, s');
        WinsCarry(s, s');
      }
    } else if a.InnerSweep? {
      WinsSweep(s, a, c, s');
    } else {
      WinsFrame(s, a, c, s');
      WinsCarry(s, s');
    }
  }

  ghost predicate Grows(s: Sys, s': Sys) {
    s.hist <= s'.hist && s.now <= s'.now && s'.ttl == s.ttl
  }

  lemma EntryKept(s: Sys, s': Sys, e: Entry)
    requires EntryOK(s, e) && Grows(s, s')
    ensures EntryOK(s', e)
  {
  }

  lemma CallReadsKept(s: Sys, s': Sys, call: Call)
    requires CallReadsOK(s, call) && Grows(s, s')
    ensures CallReadsOK(s', call)
  {
  }

  /** The fields Create reads once and for all do not change between its two reads. */
  lemma CopyMixes(s: Sys, a: Action, c: nat, s': Sys)
    requires IDsOK(s) && HistOK(s) && ReadsOK(s) && Step(s, a, c, s') && (a.CopyStatus? || a.CopyTime?)
    ensures CallReadsOK(s', NextCall(s, a, c))
  {
    assert CallReadsOK(s, s.calls[c]);
    if s.calls[c].HalfCopied? {
      var read := s.calls[c].half.read;
      assert StoreEvolves(s.hist[read].store, s.hist[|s.hist| - 1].store);
      assert s'.hist[read] == s.hist[read] && s'.hist[|s.hist|].store == s.store;
    }
  }

  lemma NewReadOK(s: Sys, a: Action, c: nat, s': Sys)
    requires IDsOK(s) && ReadsOK(s) && Step(s, a, c, s') && !Environmental(a) && !a.CopyStatus? && !a.CopyTime?
    ensures CallReadsOK(s', NextCall(s, a, c))
  {
    if c in s.calls {
      CallReadsKept(s, s', s.calls[c]);
    }
    if a.CacheHit? {
      EntryKept(s, s', s.cache[s.calls[c].id]);
    }
  }

  ghost predicate CacheOK(s: Sys, cache: map<string, Entry>) {
    forall id | id in cache ::
      EntryOK(s, cache[id]) && (cache[id].payload.Json? ==> cache[id].payload.order.id == id)
  }

  lemma NewEntriesOK(s: Sys, a: Action, c: nat, s': Sys)
    requires HistOK(s) && ReadsOK(s) && Step(s, a, c, s')
    ensures CacheOK(s', NextCache(s, a, c))
  {
    forall id | id in s.cache ensures EntryOK(s', s.cache[id]) {
      EntryKept(s, s', s.cache[id]);
    }
    if a == Fill(true) {
      assert CallReadsOK(s, s.calls[c]);
      assert s.hist[s.calls[c].read].time <= s.hist[|s.hist| - 1].time;
    }
  }

  lemma ReadsStep(s: Sys, a: Action, c: nat, s': Sys)
    requires IDsOK(s) && HistOK(s) && ReadsOK(s) && Step(s, a, c, s')
    ensures ReadsOK(s')
  {
    NewEntriesOK(s, a, c, s');
    forall d | d in s'.calls ensures CallReadsOK(s', s'.calls[d]) {
      if d in s.calls && s'.calls[d] == s.calls[d] {
        CallReadsKept(s, s', s.calls[d]);
      } else {
        if a.CopyStatus? || a.CopyTime? {
          CopyMixes(s, a, c, s');
        } else {
          NewReadOK(s, a, c, s');
        }
      }
    }
  }

  lemma SameTold(s: Sys, a: Action, c: nat)
    requires WinsOK(s) && Enabled(s, a, c) && !Environmental(a) && !a.Emit?
    ensures Told(NextCall(s, a, c)) == if c in s.calls then Told(s.calls[c]) else {}
    ensures !NextCall(s, a, c).CreateDone? && (c in s.calls ==> !s.calls[c].CreateDone?)
    ensures c in s.calls && Told(s.calls[c]) != {} ==> Verdict(NextCall(s, a, c)) == Verdict(s.calls[c])
  {
  }

  /** What an emit of ev turns call into. */
  ghost predicate Tells(call: Call, call': Call, ev: Event) {
    && !call.CreateDone?
    && if Terminal(ev) then
         && ev.orderID !in Told(call) && ev.orderID in Decided(call)
         && Told(call') == Told(call) + {ev.orderID} && !call'.CreateDone?
         && Verdict(call') == Verdict(call) == ev.status
         && ev.kind == (if ev.status == Confirmed then EventConfirmed else EventCanceled)
         && ev.customerID == ""
       else Told(call') == Told(call) == {} && call'.CreateDone? && Announces(ev, call'.order)
  }

  lemma SweepTellsOneMore(ids: seq<string>, next: nat)
    requires NoDuplicates(ids) && next < |ids|
    ensures var call' := if next + 1 == |ids| then SweepDone(ids) else SweepEmitting(ids, next + 1);
      Tells(SweepEmitting(ids, next), call', CanceledEvent(ids[next]))
  {
    assert Elements(ids[..next + 1]) == Elements(ids[..next]) + {ids[next]};
    assert ids[..|ids|] == ids;
  }

  /** An emit tells of one more id, one the call has won and not told of before. */
  lemma TellsOneMore(s: Sys, accepted: bool, c: nat)
    requires WinsOK(s) && Enabled(s, Emit(accepted), c)
    ensures Tells(s.calls[c], NextCall(s, Emit(accepted), c), Outgoing(s.calls[c]))
  {
    var call := s.calls[c];
    assert SweepOK(call);
    match call
    case SweepEmitting(ids, next) =>
      SweepTellsOneMore(ids, next);
      assert Outgoing(call) == CanceledEvent(ids[next]);
    case _ =>
  }

  lemma ToldIsDecided(call: Call)
    ensures Told(call) <= Decided(call)
  {
  }

  /** No record with the same id and the same finality is in the log yet. */
  lemma NotYetLogged(s: Sys, accepted: bool, c: nat, g: Logged)
    requires IDsOK(s) && WinsOK(s) && RecordOK(s, g) && Enabled(s, Emit(accepted), c)
    requires g.event.orderID == Outgoing(s.calls[c]).orderID
    ensures Terminal(g.event) != Terminal(Outgoing(s.calls[c]))
  {
    TellsOneMore(s, accepted, c);
    var id, d := g.event.orderID, g.caller;
    ToldIsDecided(s.calls[d]);
    assert Terminal(g.event) ==> id in Decided(s.calls[d]) && s.winner[id] == d;
    assert !Terminal(g.event) ==> Issued(s.calls[d]) == Ok(id) && s.creator[id] == d;
    assert Terminal(Outgoing(s.calls[c])) ==> id in Decided(s.calls[c]) && s.winner[id] == c;
    assert !Terminal(Outgoing(s.calls[c])) ==> Issued(s.calls[c]) == Ok(id) && s.creator[id] == c;
  }

  lemma InLogGrows(log: seq<Logged>, g: Logged, id: string, terminal: bool)
    ensures InLog(log, id, terminal) ==> InLog(log + [g], id, terminal)
    ensures g.event.orderID == id && Terminal(g.event) == terminal ==> InLog(log + [g], id, terminal)
  {
    if InLog(log, id, terminal) {
      var i :| 0 <= i < |log| && log[i].event.orderID == id && Terminal(log[i].event) == terminal;
      assert (log + [g])[i] == log[i];
    }
    assert (log + [g])[|log|] == g;
  }

  lemma RecordKept(s: Sys, accepted: bool, c: nat, s': Sys, g: Logged)
    requires WinsOK(s) && Step(s, Emit(accepted), c, s') && RecordOK(s, g)
    ensures RecordOK(s', g)
  {
  }

  lemma RecordAdded(s: Sys, c: nat, s': Sys)
    requires WinsOK(s) && Step(s, Emit(true), c, s')
    ensures RecordOK(s', Logged(Outgoing(s.calls[c]), c))
  {
  }

  lemma AllLoggedKept(s: Sys, c: nat, s': Sys, d: nat)
    requires WinsOK(s) && Step(s, Emit(true), c, s') && d in s.calls && AllLogged(s, s.calls[d])
    ensures AllLogged(s', s'.calls[d])
  {
    TellsOneMore(s, true, c);
    var g := Logged(Outgoing(s.calls[c]), c);
    forall id, terminal ensures
      && (InLog(s.log, id, terminal) ==> InLog(s'.log, id, terminal))
      && (g.event.orderID == id && Terminal(g.event) == terminal ==> InLog(s'.log, id, terminal))
    {
      InLogGrows(s.log, g, id, terminal);
    }
  }

  lemma LogEmit(s: Sys, accepted: bool, c: nat, s': Sys)
    requires IDsOK(s) && WinsOK(s) && LogOK(s) && Step(s, Emit(accepted), c, s')
    ensures LogOK(s')
  {
    forall i | 0 <= i < |s.log| ensures RecordOK(s', s.log[i]) {
      RecordKept(s, accepted, c, s', s.log[i]);
    }
    if accepted {
      RecordAdded(s, c, s');
      forall i | 0 <= i < |s.log| && s.log[i].event.orderID == Outgoing(s.calls[c]).orderID
        ensures Terminal(s.log[i].event) != Terminal(Outgoing(s.calls[c]))
      {
        NotYetLogged(s, accepted, c, s.log[i]);
      }
      if s.reliable {
        forall d | d in s'.calls ensures AllLogged(s', s'.calls[d]) {
          AllLoggedKept(s, c, s', d);
        }
      }
    }
  }

  ghost predicate SameTelling(s: Sys, s': Sys) {
    && s'.log == s.log && s'.reliable == s.reliable
    && (forall d | d in s.calls ::
          && d in s'.calls && Told(s'.calls[d]) == Told(s.calls[d])
          && (Told(s.calls[d]) != {} ==> Verdict(s'.calls[d]) == Verdict(s.calls[d]))
          && (s.calls[d].CreateDone? ==> s'.calls[d] == s.calls[d]))
    && (forall d | d in s'.calls && (Told(s'.calls[d]) != {} || s'.calls[d].CreateDone?) ::
          d in s.calls && (s'.calls[d].CreateDone? ==> s'.calls[d] == s.calls[d]))
  }

  lemma LogFrame(s: Sys, a: Action, c: nat, s': Sys)
    requires WinsOK(s) && Step(s, a, c, s') && !a.Emit?
    ensures SameTelling(s, s')
  {
    if !Environmental(a) {
      SameTold(s, a, c);
    }
  }

  lemma LogCarry(s: Sys, s': Sys)
    requires LogOK(s) && SameTelling(s, s')
    ensures LogOK(s')
  {
  }

  lemma LogStep(s: Sys, a: Action, c: nat, s': Sys)
    requires IDsOK(s) && WinsOK(s) && LogOK(s) && Step(s, a, c, s')
    ensures LogOK(s')
  {
    if a.Emit? {
      LogEmit(s, a.accepted, c, s');
    } else {
      LogFrame(s, a, c, s');
      LogCarry(s, s');
    }
  }

  // ---------- Every reachable state ----------

  ghost predicate Inv(s: Sys) {
    IDsOK(s) && HistOK(s) && WinsOK(s) && ReadsOK(s) && LogOK(s)
  }

  lemma InvStep(s: Sys, a: Action, c: nat, s': Sys)
    requires Inv(s) && Step(s, a, c, s')
    ensures Inv(s')
  {
    IDsStep(s, a, c, s');
    HistStep(s, a, c, s');
    WinsStep(s, a, c, s');
    ReadsStep(s, a, c, s');
    LogStep(s, a, c, s');
  }

  lemma {:induction false} InvRun(run: seq<Sys>, labels: seq<Label>, i: nat)
    requires Run(run, labels) && i < |run|
    ensures Inv(run[i])
  {
    if i > 0 {
      InvRun(run, labels, i - 1);
      assert StepAt(run, labels, i - 1);
      InvStep(run[i - 1], labels[i - 1].action, labels[i - 1].call, run[i]);
    }
  }

  /** The recorded history is the run itself. */
  lemma {:induction false} HistoryIsTheRun(run: seq<Sys>, labels: seq<Label>, i: nat)
    requires Run(run, labels) && i < |run|
    ensures |run[i].hist| == i + 1 && run[i].ttl == run[0].ttl && run[i].reliable == run[0].reliable
    ensures forall j | 0 <= j <= i :: run[i].hist[j] == Snapshot(run[j].store, run[j].now)
  {
    if i > 0 {
      HistoryIsTheRun(run, labels, i - 1);
      assert StepAt(run, labels, i - 1);
    }
  }

  lemma StoreOverTime(run: seq<Sys>, labels: seq<Label>, i: nat, j: nat)
    requires Run(run, labels) && i <= j < |run|
    ensures StoreEvolves(run[i].store, run[j].store) && run[i].now <= run[j].now
  {
    InvRun(run, labels, j);
    HistoryIsTheRun(run, labels, j);
    assert run[j].hist[i] == Snapshot(run[i].store, run[i].now);
  }
}
