/** What Create inserts and hands back under concurrency. */
module OrderCreation {
  import opened Sequences
  import opened Orders
  import opened StackSpec
  import opened OrderStack

  // ---------- What Create inserts ----------

  /** At step q call c takes a new id for the given customer and items. */
  predicate ReservesAt(run: seq<Sys>, labels: seq<Label>, q: nat, c: nat, customerID: string, items: seq<Item>) {
    q < |labels| && q < |run| && labels[q] == Label(Reserve(customerID, items), c)
  }

  /** At step p call c puts the order in the store, stamped by a clock read since its id was taken. */
  ghost predicate InsertsAt(run: seq<Sys>, labels: seq<Label>, q: nat, p: nat, c: nat, id: string) {
    && q < p < |labels| && p + 1 < |run| && labels[q].action.Reserve? && labels[q].call == c
    && labels[p].action.Insert? && labels[p].call == c && id in run[p + 1].store
    && var Reserve(customerID, items) := labels[q].action;
       var stamp := labels[p].action.stamp;
       && run[q].now <= stamp <= run[p].now && run[p + 1].store[id].id == id
       && InsertsExactly(run[p].store, run[p + 1].store, run[p + 1].store[id], customerID, items, stamp)
  }

  ghost predicate InsertedBefore(run: seq<Sys>, labels: seq<Label>, n: nat, c: nat, id: string) {
    exists q: nat, p: nat :: p < n && InsertsAt(run, labels, q, p, c, id)
  }

  ghost predicate CreateTraced(run: seq<Sys>, labels: seq<Label>, n: nat, c: nat, call: Call) {
    match call
    case Reserved(_, customerID, items, since) =>
      exists q: nat :: q < n && ReservesAt(run, labels, q, c, customerID, items) && run[q].now == since
    case Inserted(id) => InsertedBefore(run, labels, n, c, id)
    case HalfCopied(id, _) => InsertedBefore(run, labels, n, c, id)
    case Copied(o, _, _) => InsertedBefore(run, labels, n, c, o.id)
    case CreateDone(o, _, _) => InsertedBefore(run, labels, n, c, o.id)
    case _ => true
  }

  lemma InsertedLater(run: seq<Sys>, labels: seq<Label>, n: nat, c: nat, id: string)
    requires InsertedBefore(run, labels, n, c, id)
    ensures InsertedBefore(run, labels, n + 1, c, id)
  {
    var q: nat, p: nat :| p < n && InsertsAt(run, labels, q, p, c, id);
  }

  lemma CreateTracedLater(run: seq<Sys>, labels: seq<Label>, n: nat, c: nat, call: Call)
    requires CreateTraced(run, labels, n, c, call)
    ensures CreateTraced(run, labels, n + 1, c, call)
  {
    match call
    case Reserved(_, customerID, items, since) =>
      var q: nat :| q < n && ReservesAt(run, labels, q, c, customerID, items) && run[q].now == since;
    case Inserted(id) => InsertedLater(run, labels, n, c, id);
    case HalfCopied(id, _) => InsertedLater(run, labels, n, c, id);
    case Copied(o, _, _) => InsertedLater(run, labels, n, c, o.id);
    case CreateDone(o, _, _) => InsertedLater(run, labels, n, c, o.id);
    case _ =>
  }

  lemma InsertTraced(run: seq<Sys>, labels: seq<Label>, n: nat, c: nat)
    requires Run(run, labels) && n < |labels| && labels[n].action.Insert? && labels[n].call == c && IDsOK(run[n])
    requires c in run[n].calls && CreateTraced(run, labels, n, c, run[n].calls[c])
    ensures StepAt(run, labels, n)
    ensures CreateTraced(run, labels, n + 1, c, run[n + 1].calls[c])
  {
    assert StepAt(run, labels, n);
    var Reserved(id, customerID, items, since) := run[n].calls[c];
    var q: nat :| q < n && ReservesAt(run, labels, q, c, customerID, items) && run[q].now == since;
    assert Issued(run[n].calls[c]) == Ok(id);
    InsertIsExact(run[n].store, id, customerID, items, labels[n].action.stamp);
    assert InsertsAt(run, labels, q, n, c, id);
  }

  lemma CopyTraced(run: seq<Sys>, labels: seq<Label>, n: nat, c: nat, s: Sys, a: Action)
    requires IDsOK(s) && Enabled(s, a, c) && !Environmental(a) && !a.Reserve? && !a.Insert?
    requires c in s.calls ==> CreateTraced(run, labels, n, c, s.calls[c])
    ensures CreateTraced(run, labels, n, c, NextCall(s, a, c))
  {
  }

  lemma CreateTracedNext(run: seq<Sys>, labels: seq<Label>, n: nat, c: nat)
    requires Run(run, labels) && n < |labels| && IDsOK(run[n])
    requires labels[n].call == c && !Environmental(labels[n].action)
    requires c in run[n].calls ==> CreateTraced(run, labels, n, c, run[n].calls[c])
    ensures c in run[n + 1].calls && CreateTraced(run, labels, n + 1, c, run[n + 1].calls[c])
  {
    var s, a := run[n], labels[n].action;
    assert StepAt(run, labels, n);
    if a.Reserve? {
      assert ReservesAt(run, labels, n, c, a.customerID, a.items);
    } else if a.Insert? {
      InsertTraced(run, labels, n, c);
    } else {
      CopyTraced(run, labels, n, c, s, a);
      CreateTracedLater(run, labels, n, c, NextCall(s, a, c));
    }
  }

  lemma CreateTracedAfter(run: seq<Sys>, labels: seq<Label>, n: nat, c: nat)
    requires Run(run, labels) && n < |labels| && c in run[n + 1].calls
    requires c in run[n].calls ==> CreateTraced(run, labels, n, c, run[n].calls[c])
    ensures CreateTraced(run, labels, n + 1, c, run[n + 1].calls[c])
  {
    if labels[n].call == c && !Environmental(labels[n].action) {
      InvRun(run, labels, n);
      CreateTracedNext(run, labels, n, c);
    } else {
      assert StepAt(run, labels, n);
      CreateTracedLater(run, labels, n, c, run[n].calls[c]);
    }
  }

  lemma {:induction false} CreateTracedInRun(run: seq<Sys>, labels: seq<Label>, n: nat, c: nat)
    requires Run(run, labels) && n < |run| && c in run[n].calls
    ensures CreateTraced(run, labels, n, c, run[n].calls[c])
  {
    if n > 0 {
      if c in run[n - 1].calls {
        CreateTracedInRun(run, labels, n - 1, c);
      }
      CreateTracedAfter(run, labels, n - 1, c);
    }
  }

  /** The moment of the run from which Create's copy has all but its status. */
  lemma MixedInRun(run: seq<Sys>, labels: seq<Label>, n: nat, c: nat)
    requires Run(run, labels) && n < |run| && c in run[n].calls && run[n].calls[c].CreateDone?
    ensures var CreateDone(o, _, timeRead) := run[n].calls[c];
      && timeRead <= n && o.id in run[timeRead].store && o == run[timeRead].store[o.id].(status := o.status)
      && o.id in run[n].store
  {
    InvRun(run, labels, n);
    HistoryIsTheRun(run, labels, n);
    var CreateDone(o, statusRead, timeRead) := run[n].calls[c];
    assert CallReadsOK(run[n], run[n].calls[c]);
    assert run[n].hist[timeRead] == Snapshot(run[timeRead].store, run[timeRead].now);
    StoreOverTime(run, labels, timeRead, n);
  }

  /** What Create returns is the order it was asked for: customer, items and creation time as inserted,
    * whatever has become of its status; and the store has that order from the insertion on.
    */
  lemma CreateReturnsItsOrder(run: seq<Sys>, labels: seq<Label>, n: nat, c: nat) returns (q: nat, p: nat)
    requires Run(run, labels) && n < |run| && c in run[n].calls && run[n].calls[c].CreateDone?
    ensures q < p < n && labels[q].call == c && labels[p].call == c
    ensures labels[q].action.Reserve? && labels[p].action.Insert?
    ensures var o, stamp := run[n].calls[c].order, labels[p].action.stamp;
      && o.customerID == labels[q].action.customerID && o.items == labels[q].action.items
      && o.createdAt == stamp && run[q].now <= stamp <= run[p].now
      && o.id !in run[p].store && o.id in run[p + 1].store && o.id in run[n].store
      && run[n].store[o.id] == o.(status := run[n].store[o.id].status, updatedAt := run[n].store[o.id].updatedAt)
  {
    MixedInRun(run, labels, n, c);
    CreateTracedInRun(run, labels, n, c);
    var CreateDone(o, statusRead, timeRead) := run[n].calls[c];
    q, p :| p < n && InsertsAt(run, labels, q, p, c, o.id);
    TwoVersions(run, labels, timeRead, n, o.id);
    StoreOverTime(run, labels, p + 1, n);
    TwoVersions(run, labels, p + 1, n, o.id);
  }

  // ---------- What Create hands back ----------

  ghost function After(s: Sys, a: Action, c: nat): (s': Sys)
    requires Enabled(s, a, c)
    ensures Step(s, a, c, s')
  {
    Sys(s.ttl, s.reliable,
        if a.Reserve? then s.nextID + 1 else s.nextID,
        NextStore(s, a, c), NextCache(s, a, c),
        if a.Tick? then a.time else s.now,
        if Environmental(a) then s.calls else s.calls[c := NextCall(s, a, c)],
        NextLog(s, a, c),
        s.hist + [Snapshot(NextStore(s, a, c), if a.Tick? then a.time else s.now)],
        if a.Reserve? then s.creator[OrderID(s.nextID + 1) := c] else s.creator,
        NextWinner(s, a, c))
  }

  /** The status Create has read back, once it has. */
  function StatusOf(call: Call): Status
    requires call.Copied? || call.CreateDone? || (call.HalfCopied? && call.half.StatusRead?)
  {
    if call.HalfCopied? then call.half.status else call.order.status
  }

  /** Create hands back a PENDING order exactly when no call has decided it before its status is read. */
  lemma CreateReturnsPendingIff(run: seq<Sys>, labels: seq<Label>, i: nat, c: nat)
    requires Run(run, labels) && i < |labels| && labels[i] == Label(CopyStatus, c)
    ensures StepAt(run, labels, i)
    ensures c in run[i].calls && Issued(run[i].calls[c]).Ok?
    ensures var after := run[i + 1].calls[c]; after.Copied? || (after.HalfCopied? && after.half.StatusRead?)
    ensures var id := Issued(run[i].calls[c]).value;
      StatusOf(run[i + 1].calls[c]) == Pending <==> !exists d :: d in run[i].calls && id in Decided(run[i].calls[d])
  {
    var s := run[i];
    InvRun(run, labels, i);
    assert StepAt(run, labels, i);
    forall d | d in s.calls && s.calls[c].id in Decided(s.calls[d]) ensures WonBy(s, d, s.calls[c].id) {
    }
  }

  /** Two stores of a run have the same order or its two versions, the earlier one PENDING. */
  lemma TwoVersions(run: seq<Sys>, labels: seq<Label>, i: nat, j: nat, id: string)
    requires Run(run, labels) && i < |run| && j < |run| && id in run[i].store && id in run[j].store
    ensures var a, b := run[i].store[id], run[j].store[id];
      && a == b.(status := a.status, updatedAt := a.updatedAt)
      && (a == b <==> a.status == b.status)
      && (a != b ==> a.status == Pending || b.status == Pending)
  {
    if i <= j {
      StoreOverTime(run, labels, i, j);
    } else {
      StoreOverTime(run, labels, j, i);
    }
  }

  ghost predicate StoredAt(run: seq<Sys>, j: nat, o: Order) {
    j < |run| && o.id in run[j].store && run[j].store[o.id] == o
  }

  /** What Create returns is an order the store has held at some moment exactly when its status and
    * its update time were read on the same side of the order's decision, or that left the time as it was.
    */
  lemma CreateCopyIsVersionIff(run: seq<Sys>, labels: seq<Label>, i: nat, c: nat)
    requires Run(run, labels) && i < |run| && c in run[i].calls
    requires run[i].calls[c].Copied? || run[i].calls[c].CreateDone?
    ensures var call := run[i].calls[c];
      var o, m, n := call.order, call.statusRead, call.timeRead;
      && m <= i && n <= i && o.id in run[m].store && o.id in run[n].store
      && ((exists j :: StoredAt(run, j, o)) <==>
            || run[m].store[o.id].status == run[n].store[o.id].status
            || run[m].store[o.id].updatedAt == run[n].store[o.id].updatedAt)
  {
    var call := run[i].calls[c];
    var o, m, n := call.order, call.statusRead, call.timeRead;
    InvRun(run, labels, i);
    HistoryIsTheRun(run, labels, i);
    assert CallReadsOK(run[i], call);
    assert run[i].hist[m] == Snapshot(run[m].store, run[m].now) && run[i].hist[n] == Snapshot(run[n].store, run[n].now);
    TwoVersions(run, labels, m, n, o.id);
    if j :| StoredAt(run, j, o) {
      TwoVersions(run, labels, j, m, o.id);
      TwoVersions(run, labels, j, n, o.id);
    }
    var a, b := run[m].store[o.id], run[n].store[o.id];
    if a.status == b.status || a.updatedAt == b.updatedAt {
      assert StoredAt(run, m, o);
    }
  }

  lemma RunGrows(run: seq<Sys>, labels: seq<Label>, a: Action, c: nat)
    returns (run': seq<Sys>, labels': seq<Label>)
    requires Run(run, labels) && Enabled(run[|labels|], a, c)
    ensures Run(run', labels') && run'[|labels'|] == After(run[|labels|], a, c)
  {
    run', labels' := run + [After(run[|labels|], a, c)], labels + [Label(a, c)];
    forall i | 0 <= i < |labels'| ensures StepAt(run', labels', i) {
      assert i < |labels| ==> StepAt(run, labels, i);
    }
  }

  /** The order is in the store, and Create has read back its update time. */
  lemma TimeIsRead() returns (run: seq<Sys>, labels: seq<Label>)
    ensures Run(run, labels)
    ensures var s, id := run[|labels|], OrderID(1);
      && s.calls == map[0 := HalfCopied(id, TimeRead(0, 3))] && s.now == 0
      && s.store == map[id := NewOrder(id, "c", [], 0)]
  {
    run, labels := [Sys(0, true, 0, map[], map[], 0, map[], [], [Snapshot(map[], 0)], map[], map[])], [];
    run, labels := RunGrows(run, labels, Reserve("c", []), 0);
    run, labels := RunGrows(run, labels, Insert(0), 0);
    run, labels := RunGrows(run, labels, CopyTime, 0);
  }

  /** Create returns a CONFIRMED order with the update time of its creation, which no store ever
    * held: the confirmation comes between the two reads, made without the lock.
    */
  lemma CreateMayReturnTorn() returns (run: seq<Sys>, labels: seq<Label>)
    ensures Run(run, labels)
    ensures var last, id := run[|labels|], OrderID(1);
      && 0 in last.calls && last.calls[0].Copied?
      && last.calls[0].order == NewOrder(id, "c", [], 0).(status := Confirmed)
      && id in last.store && last.store[id] == NewOrder(id, "c", [], 0).(status := Confirmed, updatedAt := 5)
    ensures !exists j :: StoredAt(run, j, run[|labels|].calls[0].order)
  {
    run, labels := TimeIsRead();
    run, labels := RunGrows(run, labels, Tick(5), 0);
    run, labels := RunGrows(run, labels, Invoke(Confirming(OrderID(1))), 1);
    run, labels := RunGrows(run, labels, InnerConfirm, 1);
    run, labels := RunGrows(run, labels, CopyStatus, 0);
    forall j | StoredAt(run, j, run[|labels|].calls[0].order) ensures false {
      TwoVersions(run, labels, j, |labels|, OrderID(1));
    }
  }
}
