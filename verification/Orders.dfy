/** The order domain: identifiers, the status lifecycle, and the three atomic
  * transitions (insert, confirm, sweep) every store backend performs on its rows.
  */
module Orders {
  import opened Sequences

  datatype Status = Pending | Confirmed | Canceled

  datatype Item = Item(sku: string, quantity: int)

  datatype Order = Order(
    id: string,
    customerID: string,
    items: seq<Item>,
    status: Status,
    createdAt: int,
    updatedAt: int)

  type Store = map<string, Order>

  datatype Error = OrderNotFound | NotConnected | StatementFailed

  datatype Result<+T> = Ok(value: T) | Err(error: Error)

  // ---------- Identifiers ----------

  function Decimal(n: nat): string {
    if n < 10 then [('0' as int + n) as char] else Decimal(n / 10) + [('0' as int + n % 10) as char]
  }

  /** The id the n-th increment of the counter yields. */
  function OrderID(n: nat): string {
    "ord_" + Decimal(n)
  }

  ghost function DecimalValue(s: string): int {
    if s == "" then 0 else DecimalValue(s[..|s| - 1]) * 10 + (s[|s| - 1] as int - '0' as int)
  }

  lemma {:induction false} DecimalRoundTrip(n: nat)
    ensures DecimalValue(Decimal(n)) == n
  {
    if n >= 10 {
      DecimalRoundTrip(n / 10);
      assert Decimal(n)[..|Decimal(n)| - 1] == Decimal(n / 10);
    } else {
      assert Decimal(n)[..0] == "";
    }
  }

  /** Distinct counter values give distinct ids. */
  lemma OrderIDInjective(m: nat, n: nat)
    ensures OrderID(m) == OrderID(n) <==> m == n
  {
    if OrderID(m) == OrderID(n) {
      assert Decimal(m) == OrderID(m)[4..] == OrderID(n)[4..] == Decimal(n);
      DecimalRoundTrip(m);
      DecimalRoundTrip(n);
    }
  }

  // ---------- Atomic transitions ----------

  function NewOrder(id: string, customerID: string, items: seq<Item>, now: int): Order {
    Order(id, customerID, items, Pending, now, now)
  }

  function Lookup(st: Store, id: string): Result<Order> {
    if id in st then Ok(st[id]) else Err(OrderNotFound)
  }

  /** The outcome of confirming in one atomic step: a real transition, a no-op, or no such order. */
  function ConfirmResult(st: Store, id: string): Result<bool> {
    if id in st then Ok(st[id].status == Pending) else Err(OrderNotFound)
  }

  function ConfirmedStore(st: Store, id: string, now: int): Store {
    if ConfirmResult(st, id) == Ok(true) then st[id := st[id].(status := Confirmed, updatedAt := now)] else st
  }

  predicate Stale(o: Order, cutoff: int) {
    o.status == Pending && o.createdAt < cutoff
  }

  function StaleIDs(st: Store, cutoff: int): set<string> {
    set id | id in st && Stale(st[id], cutoff)
  }

  function SweptOrder(o: Order, cutoff: int, now: int): Order {
    if Stale(o, cutoff) then o.(status := Canceled, updatedAt := now) else o
  }

  /** now(id) is the clock reading taken when the row of id is written. */
  function SweptStore(st: Store, cutoff: int, now: string -> int): Store {
    map id | id in st :: SweptOrder(st[id], cutoff, now(id))
  }

  // ---------- The transitions in plain terms ----------

  /** The order inserted, and nothing else changed. */
  ghost predicate InsertsExactly(st: Store, st': Store, o: Order, customerID: string, items: seq<Item>, now: int) {
    && o.id !in st && st'.Keys == st.Keys + {o.id} && st'[o.id] == o
    && (forall id | id in st :: st'[id] == st[id])
    && o.customerID == customerID && o.items == items
    && o.status == Pending && o.createdAt == now && o.updatedAt == now
  }

  /** Unknown, already decided, or confirmed now; in the last case alone one order changes. */
  ghost predicate ConfirmsExactly(st: Store, st': Store, id: string, now: int, r: Result<bool>) {
    && (r == Err(OrderNotFound) <==> id !in st)
    && (r == Ok(false) <==> id in st && st[id].status != Pending)
    && (r == Ok(true) <==> id in st && st[id].status == Pending)
    && st'.Keys == st.Keys
    && (forall other | other in st && (other != id || r != Ok(true)) :: st'[other] == st[other])
    && (r == Ok(true) ==> st'[id] == st[id].(status := Confirmed, updatedAt := now))
  }

  /** Canceled are the PENDING orders created before the cutoff, each once, and no other order changes. */
  ghost predicate SweepsExactly(st: Store, st': Store, ids: seq<string>, cutoff: int, now: string -> int) {
    && NoDuplicates(ids)
    && (forall id :: id in ids <==> id in st && st[id].status == Pending && st[id].createdAt < cutoff)
    && st'.Keys == st.Keys
    && (forall id | id in ids :: st'[id] == st[id].(status := Canceled, updatedAt := now(id)))
    && (forall id | id in st && id !in ids :: st'[id] == st[id])
  }

  lemma InsertIsExact(st: Store, id: string, customerID: string, items: seq<Item>, now: int)
    requires id !in st
    ensures var o := NewOrder(id, customerID, items, now);
      o.id == id && InsertsExactly(st, st[id := o], o, customerID, items, now)
  {
  }

  lemma ConfirmIsExact(st: Store, id: string, now: int)
    ensures ConfirmsExactly(st, ConfirmedStore(st, id, now), id, now, ConfirmResult(st, id))
  {
  }

  lemma SweepIsExact(st: Store, ids: seq<string>, cutoff: int, now: string -> int)
    requires Enumerates(ids, StaleIDs(st, cutoff))
    ensures SweepsExactly(st, SweptStore(st, cutoff, now), ids, cutoff, now)
  {
  }

  // ---------- Evolution ----------

  /** The only change an order ever undergoes: one step out of PENDING. */
  predicate Evolves(o: Order, o': Order) {
    || o' == o
    || (o.status == Pending && o'.status != Pending && o' == o.(status := o'.status, updatedAt := o'.updatedAt))
  }

  ghost predicate StoreEvolves(st: Store, st': Store) {
    forall id | id in st :: id in st' && Evolves(st[id], st'[id])
  }

  lemma EvolvesTransitively(a: Store, b: Store, c: Store)
    requires StoreEvolves(a, b) && StoreEvolves(b, c)
    ensures StoreEvolves(a, c)
  {
  }
}
