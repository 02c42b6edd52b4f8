/** The in-memory store: a map of pointers to mutable records behind one mutex. */
module MemoryStore {
  import opened Sequences
  import opened Orders

  class OrderRecord {
    const id: string
    const customerID: string
    const items: seq<Item>
    const createdAt: int
    var status: Status
    var updatedAt: int
    ghost const number: nat  // the counter value the id was made from

    constructor (id: string, customerID: string, items: seq<Item>, now: int, ghost number: nat)
      ensures Value() == NewOrder(id, customerID, items, now) && this.number == number
    {
      this.number := number;
      this.id, this.customerID, this.items, this.createdAt := id, customerID, items, now;
      this.status, this.updatedAt := Pending, now;
    }

    function Value(): Order
      reads this
    {
      Order(id, customerID, items, status, createdAt, updatedAt)
    }
  }

  class InMemoryStore {
    var orders: map<string, OrderRecord>
    var nextID: nat

    /** Every record sits under its own id, and every id came from the counter. */
    ghost predicate Valid()
      reads this, orders.Values
    {
      && (forall id | id in orders :: orders[id].id == id)
      && (forall id | id in orders :: 1 <= orders[id].number <= nextID && id == OrderID(orders[id].number))
    }

    ghost function Contents(): Store
      reads this, orders.Values
    {
      map id | id in orders :: orders[id].Value()
    }

    constructor ()
      ensures Valid() && Contents() == map[] && nextID == 0 && orders == map[]
    {
      orders, nextID := map[], 0;
    }

    lemma NextIDIsFree()
      requires Valid()
      ensures OrderID(nextID + 1) !in orders
    {
      if OrderID(nextID + 1) in orders {
        OrderIDInjective(orders[OrderID(nextID + 1)].number, nextID + 1);
      }
    }

    method Create(customerID: string, items: seq<Item>, now: int) returns (o: Order)
      requires Valid()
      modifies this
      ensures Valid() && nextID == old(nextID) + 1
      ensures fresh(orders.Values - old(orders.Values))
      ensures o == NewOrder(OrderID(nextID), customerID, items, now)
      ensures o.id !in old(Contents())
      ensures Contents() == old(Contents())[o.id := o]
      ensures InsertsExactly(old(Contents()), Contents(), o, customerID, items, now)
    {
      NextIDIsFree();
      nextID := nextID + 1;
      var id := OrderID(nextID);
      var record := new OrderRecord(id, customerID, items, now, nextID);
      orders := orders[id := record];
      o := record.Value();
      forall k | k in Contents() ensures Contents()[k] == old(Contents())[id := o][k] {
        assert k != id ==> old(allocated(orders[k]));
      }
      InsertIsExact(old(Contents()), id, customerID, items, now);
    }

    method Get(id: string) returns (r: Result<Order>)
      requires Valid()
      ensures r == Lookup(Contents(), id)
      ensures if id in Contents() then r == Ok(Contents()[id]) && r.value.id == id else r == Err(OrderNotFound)
    {
      if id !in orders {
        return Err(OrderNotFound);
      }
      return Ok(orders[id].Value());
    }

    /** Every order exactly once, in the arbitrary order the map is ranged over. */
    method List() returns (out: seq<Order>)
      requires Valid()
      ensures Enumerates(out, Contents().Values)
      ensures |out| == |Contents()|
    {
      out := [];
      var todo := orders.Keys;
      while todo != {}
        invariant todo <= orders.Keys
        invariant NoDuplicates(out)
        invariant |out| == |orders.Keys| - |todo|
        invariant forall o :: o in out <==> o.id in orders.Keys - todo && o == orders[o.id].Value()
        decreases |todo|
      {
        var id :| id in todo;
        out := out + [orders[id].Value()];
        todo := todo - {id};
      }
      assert Contents().Keys == orders.Keys;
      forall o ensures o in out <==> o in Contents().Values {
        if o in Contents().Values {
          var id :| id in Contents() && Contents()[id] == o;
          assert o.id == id;
        }
        if o in out {
          assert Contents()[o.id] == o;
        }
      }
    }

    method ConfirmPending(id: string, now: int) returns (r: Result<bool>)
      requires Valid()
      modifies orders.Values
      ensures Valid() && orders == old(orders)
      ensures r == ConfirmResult(old(Contents()), id)
      ensures Contents() == ConfirmedStore(old(Contents()), id, now)
      ensures ConfirmsExactly(old(Contents()), Contents(), id, now, r)
    {
      ConfirmIsExact(Contents(), id, now);
      if id !in orders {
        return Err(OrderNotFound);
      }
      var o := orders[id];
      if o.status != Pending {
        return Ok(false);
      }
      o.status := Confirmed;
      o.updatedAt := now;
      return Ok(true);
    }

    /** The body of the sweep's loop: one record, under the lock the sweep holds. */
    method CancelIfStale(id: string, cutoff: int, now: int) returns (canceled: bool)
      requires Valid() && id in orders
      modifies orders.Values
      ensures Valid() && orders == old(orders)
      ensures canceled == Stale(old(Contents())[id], cutoff)
      ensures Contents() == old(Contents())[id := SweptOrder(old(Contents())[id], cutoff, now)]
    {
      var o := orders[id];
      canceled := o.status == Pending && o.createdAt < cutoff;
      if canceled {
        o.status := Canceled;
        o.updatedAt := now;
      }
    }

    method CancelStalePending(cutoff: int, now: string -> int) returns (ids: seq<string>)
      requires Valid()
      modifies orders.Values
      ensures Valid() && orders == old(orders)
      ensures Enumerates(ids, StaleIDs(old(Contents()), cutoff))
      ensures Contents() == SweptStore(old(Contents()), cutoff, now)
      ensures SweepsExactly(old(Contents()), Contents(), ids, cutoff, now)
    {
      ids := [];
      var todo := orders.Keys;
      ghost var was := Contents();
      while todo != {}
        invariant Valid() && orders == old(orders) && todo <= orders.Keys
        invariant Contents() == PartlySwept(was, todo, cutoff, now)
        invariant Enumerates(ids, StaleIDs(was, cutoff) - todo)
        decreases |todo|
      {
        var id :| id in todo;
        SweepStep(was, todo, id, ids, cutoff, now);
        var canceled := CancelIfStale(id, cutoff, now(id));
        if canceled {
          ids := ids + [id];
        }
        todo := todo - {id};
      }
      SweepIsExact(was, ids, cutoff, now);
    }
  }

  /** The store midway through a sweep's loop, with the ids in todo still to be visited. */
  ghost function PartlySwept(st: Store, todo: set<string>, cutoff: int, now: string -> int): Store {
    map id | id in st :: if id in todo then st[id] else SweptOrder(st[id], cutoff, now(id))
  }

  lemma SweepStep(st: Store, todo: set<string>, id: string, ids: seq<string>, cutoff: int, now: string -> int)
    requires id in todo && todo <= st.Keys
    requires Enumerates(ids, StaleIDs(st, cutoff) - todo)
    ensures var mid := PartlySwept(st, todo, cutoff, now);
      && mid[id] == st[id]
      && mid[id := SweptOrder(st[id], cutoff, now(id))] == PartlySwept(st, todo - {id}, cutoff, now)
    ensures Enumerates(if Stale(st[id], cutoff) then ids + [id] else ids, StaleIDs(st, cutoff) - (todo - {id}))
  {
  }
}
