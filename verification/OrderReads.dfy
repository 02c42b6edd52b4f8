/** What readers can see under concurrency: where a cached or returned order comes from, how stale it
  * can be, how long it stays cached, and when staleness ends.
  */
module OrderReads {
  import opened Sequences
  import opened Orders
  import opened StackSpec
  import opened OrderStack

  // ---------- What readers and the cache can hold ----------

  /** o is cached, about to be cached, or has been returned by a Get. */
  ghost predicate Held(s: Sys, o: Order) {
    || (o.id in s.cache && s.cache[o.id].payload == Json(o))
    || (exists c :: c in s.calls && HeldBy(s.calls[c], o))
  }

  predicate HeldBy(call: Call, o: Order) {
    match call
    case Filling(p, _) => p == o
    case GetDone(p, _) => p == o
    case _ => false
  }

  lemma HeldVersion(s: Sys, o: Order) returns (read: nat)
    requires Inv(s) && Held(s, o)
    ensures Version(s.hist, o, read)
  {
    if o.id in s.cache && s.cache[o.id].payload == Json(o) {
      read := s.cache[o.id].read;
      assert EntryOK(s, s.cache[o.id]);
    } else {
      var c :| c in s.calls && HeldBy(s.calls[c], o);
      read := ReadOf(s.calls[c]);
      assert CallReadsOK(s, s.calls[c]);
    }
  }

  /** Whatever the interleaving, an order seen anywhere is the store's present one, or the PENDING
    * original of an order since decided; so a CONFIRMED or CANCELED sighting is always current.
    */
  lemma OnlyPendingIsStale(run: seq<Sys>, labels: seq<Label>, i: nat, o: Order)
    requires Run(run, labels) && i < |run| && Held(run[i], o)
    ensures o.id in run[i].store && Evolves(o, run[i].store[o.id])
    ensures o != run[i].store[o.id] <==> o.status == Pending && run[i].store[o.id].status != Pending
    ensures o.status != Pending ==> forall j | i <= j < |run| :: o.id in run[j].store && run[j].store[o.id] == o
  {
    var s := run[i];
    InvRun(run, labels, i);
    var read := HeldVersion(s, o);
    assert StoreEvolves(s.hist[read].store, s.hist[|s.hist| - 1].store);
    forall j | i <= j < |run| ensures StoreEvolves(run[i].store, run[j].store) {
      StoreOverTime(run, labels, i, j);
    }
  }

  function ReadOf(call: Call): nat {
    match call
    case Filling(_, read) => read
    case GetDone(_, FromStore(read)) => read
    case GetDone(_, FromCache(e, _)) => e.read
    case _ => 0
  }

  // ---------- Where what a Get returns comes from ----------

  /** At step p call d, a Get that found nothing usable in the cache, reads the store. */
  predicate ReadStep(labels: seq<Label>, p: nat, d: nat) {
    p < |labels| && labels[p] == Label(InnerRead, d)
  }

  /** The entry was set at step q by a call d whose store read was step p. */
  ghost predicate FilledBy(run: seq<Sys>, labels: seq<Label>, e: Entry, d: nat, p: nat, q: nat)
    requires |run| == |labels| + 1
  {
    && ReadStep(labels, p, d) && p < q < |labels| && labels[q] == Label(Fill(true), d)
    && e.read == p + 1 && e.at == run[q].now
  }

  /** An entry that decodes was filled before step n. */
  ghost predicate EntryTraced(run: seq<Sys>, labels: seq<Label>, n: nat, e: Entry)
    requires |run| == |labels| + 1
  {
    e.payload.Json? ==> exists d: nat, p: nat, q: nat :: q < n && FilledBy(run, labels, e, d, p, q)
  }

  ghost predicate HitAt(run: seq<Sys>, labels: seq<Label>, t: nat, c: nat, e: Entry, at: int)
    requires |run| == |labels| + 1
  {
    t < |labels| && labels[t] == Label(CacheHit, c) && run[t].now == at && EntryTraced(run, labels, t, e)
  }

  ghost predicate CallTraced(run: seq<Sys>, labels: seq<Label>, n: nat, c: nat, call: Call)
    requires |run| == |labels| + 1
  {
    match call
    case Filling(_, read) => 0 < read <= n && ReadStep(labels, read - 1, c)
    case GetDone(_, FromStore(read)) => 0 < read <= n && ReadStep(labels, read - 1, c)
    case GetDone(_, FromCache(e, at)) => exists t: nat :: t < n && HitAt(run, labels, t, c, e, at)
    case _ => true
  }

  ghost predicate CacheTraced(run: seq<Sys>, labels: seq<Label>, n: nat, cache: map<string, Entry>)
    requires |run| == |labels| + 1
  {
    forall id | id in cache :: EntryTraced(run, labels, n, cache[id])
  }

  /** Every entry and every Get leads back to the steps of the run that made it. */
  ghost predicate Traced(run: seq<Sys>, labels: seq<Label>, n: nat)
    requires |run| == |labels| + 1 && n < |run|
  {
    && CacheTraced(run, labels, n, run[n].cache)
    && (forall c | c in run[n].calls :: CallTraced(run, labels, n, c, run[n].calls[c]))
  }

  lemma CacheTracedNext(run: seq<Sys>, labels: seq<Label>, n: nat)
    requires Run(run, labels) && n < |labels| && Traced(run, labels, n)
    ensures CacheTraced(run, labels, n + 1, run[n + 1].cache)
  {
    assert StepAt(run, labels, n);
    var s, a, c := run[n], labels[n].action, labels[n].call;
    var cache := run[n + 1].cache;
    forall id | id in cache ensures EntryTraced(run, labels, n + 1, cache[id]) {
      if a == Fill(true) && id == s.calls[c].order.id {
        assert CallTraced(run, labels, n, c, s.calls[c]);
        assert FilledBy(run, labels, cache[id], c, s.calls[c].read - 1, n);
      } else {
        assert EntryTraced(run, labels, n, s.cache[id]);
      }
    }
  }

  lemma CallTracedNext(run: seq<Sys>, labels: seq<Label>, n: nat, c: nat)
    requires Run(run, labels) && n < |labels| && Traced(run, labels, n)
    requires |run[n].hist| == n + 1 && c in run[n + 1].calls
    ensures CallTraced(run, labels, n + 1, c, run[n + 1].calls[c])
  {
    assert StepAt(run, labels, n);
    var s, a := run[n], labels[n].action;
    if c in s.calls {
      assert CallTraced(run, labels, n, c, s.calls[c]);
    }
    if labels[n].call == c && a.InnerRead? {
      assert ReadStep(labels, n, c);
    } else if labels[n].call == c && a.CacheHit? {
      assert EntryTraced(run, labels, n, s.cache[s.calls[c].id]);
      assert HitAt(run, labels, n, c, s.cache[s.calls[c].id], s.now);
    }
  }

  lemma {:induction false} TracedInRun(run: seq<Sys>, labels: seq<Label>, n: nat)
    requires Run(run, labels) && n < |run|
    ensures Traced(run, labels, n)
  {
    if n > 0 {
      TracedInRun(run, labels, n - 1);
      HistoryIsTheRun(run, labels, n - 1);
      CacheTracedNext(run, labels, n - 1);
      forall c | c in run[n].calls ensures CallTraced(run, labels, n, c, run[n].calls[c]) {
        CallTracedNext(run, labels, n - 1, c);
      }
    }
  }

  lemma ReadIsOfTheStore(run: seq<Sys>, labels: seq<Label>, i: nat, p: nat, d: nat, o: Order)
    requires Run(run, labels) && i < |run| && p < i && ReadStep(labels, p, d) && Version(run[i].hist, o, p + 1)
    ensures o.id in run[p].store && run[p].store[o.id] == o
  {
    HistoryIsTheRun(run, labels, i);
    assert StepAt(run, labels, p);
    assert run[i].hist[p + 1] == Snapshot(run[p + 1].store, run[p + 1].now);
  }

  /** The hit behind a Get's answer from the cache. */
  lemma HitOf(run: seq<Sys>, labels: seq<Label>, i: nat, c: nat) returns (t: nat)
    requires Run(run, labels) && i < |run|
    requires c in run[i].calls && run[i].calls[c].GetDone? && run[i].calls[c].origin.FromCache?
    ensures var GetDone(o, FromCache(e, at)) := run[i].calls[c];
      && t < i && HitAt(run, labels, t, c, e, at) && e.payload == Json(o) && Version(run[i].hist, o, e.read)
      && !Expired(run[0].ttl, e, at)
  {
    InvRun(run, labels, i);
    HistoryIsTheRun(run, labels, i);
    TracedInRun(run, labels, i);
    var GetDone(o, FromCache(e, at)) := run[i].calls[c];
    assert CallReadsOK(run[i], run[i].calls[c]) && CallTraced(run, labels, i, c, run[i].calls[c]);
    t :| t < i && HitAt(run, labels, t, c, e, at);
  }

  /** What a Get returned through the cache, hit at step t, was the store's order at step p, where a
    * Get d read it to set the entry at step q; and its age at the hit, t's time less p's, is below
    * the ttl plus d's delay from p to q, however many invalidations failed.
    */
  lemma StalenessBound(run: seq<Sys>, labels: seq<Label>, i: nat, c: nat) returns (d: nat, p: nat, q: nat, t: nat)
    requires Run(run, labels) && i < |run|
    requires c in run[i].calls && run[i].calls[c].GetDone? && run[i].calls[c].origin.FromCache?
    ensures p < q < t < i
    ensures labels[p] == Label(InnerRead, d) && labels[q] == Label(Fill(true), d) && labels[t] == Label(CacheHit, c)
    ensures var o := run[i].calls[c].order; o.id in run[p].store && run[p].store[o.id] == o
    ensures run[0].ttl > 0 ==> run[t].now - run[p].now < run[0].ttl + (run[q].now - run[p].now)
  {
    t := HitOf(run, labels, i, c);
    var GetDone(o, FromCache(e, at)) := run[i].calls[c];
    d, p, q :| q < t && FilledBy(run, labels, e, d, p, q);
    ReadIsOfTheStore(run, labels, i, p, d, o);
  }

  /** The read behind a Get's answer from the store. */
  lemma ReadOfGet(run: seq<Sys>, labels: seq<Label>, i: nat, c: nat)
    requires Run(run, labels) && i < |run|
    requires c in run[i].calls && run[i].calls[c].GetDone? && run[i].calls[c].origin.FromStore?
    ensures var GetDone(o, FromStore(read)) := run[i].calls[c];
      0 < read <= i && ReadStep(labels, read - 1, c) && Version(run[i].hist, o, read)
  {
    InvRun(run, labels, i);
    TracedInRun(run, labels, i);
    assert CallReadsOK(run[i], run[i].calls[c]) && CallTraced(run, labels, i, c, run[i].calls[c]);
  }

  /** What a Get returned past the cache was the store's order when that Get read it. */
  lemma ReadThrough(run: seq<Sys>, labels: seq<Label>, i: nat, c: nat) returns (p: nat)
    requires Run(run, labels) && i < |run|
    requires c in run[i].calls && run[i].calls[c].GetDone? && run[i].calls[c].origin.FromStore?
    ensures p < i && labels[p] == Label(InnerRead, c)
    ensures var o := run[i].calls[c].order; o.id in run[p].store && run[p].store[o.id] == o
  {
    ReadOfGet(run, labels, i, c);
    p := run[i].calls[c].origin.read - 1;
    ReadIsOfTheStore(run, labels, i, p, c, run[i].calls[c].order);
  }

  // ---------- What is cached stays until removed ----------

  /** The action may take the order's entry away or replace it. */
  ghost predicate Removes(s: Sys, a: Action, c: nat, id: string)
    requires Enabled(s, a, c)
  {
    || a == Drop(id) || a == Garble(id)
    || (a == Fill(true) && s.calls[c].order.id == id)
    || (a == Invalidate(true) && id in Affected(s.calls[c]))
  }

  ghost predicate RemovesAt(run: seq<Sys>, labels: seq<Label>, j: nat, id: string) {
    j < |labels| && j < |run| && Enabled(run[j], labels[j].action, labels[j].call)
    && Removes(run[j], labels[j].action, labels[j].call, id)
  }

  lemma EntryStays(s: Sys, a: Action, c: nat, s': Sys, id: string)
    requires Step(s, a, c, s') && !Removes(s, a, c, id)
    ensures id in s'.cache <==> id in s.cache
    ensures id in s.cache ==> s'.cache[id] == s.cache[id]
  {
  }

  /** What a Get sets is there for every later Get, until it is dropped, spoilt, set anew or deleted; and
    * until the ttl has passed a Get can answer from it.
    */
  lemma {:induction false} CachedUntilRemoved(run: seq<Sys>, labels: seq<Label>, q: nat, n: nat, d: nat)
    requires Run(run, labels) && q < n < |run| && labels[q] == Label(Fill(true), d)
    requires d in run[q].calls && run[q].calls[d].Filling?
    requires forall j: nat | q < j < n :: !RemovesAt(run, labels, j, run[q].calls[d].order.id)
    ensures var o, read := run[q].calls[d].order, run[q].calls[d].read;
      && o.id in run[n].cache && run[n].cache[o.id] == Entry(Json(o), read, run[q].now)
      && forall c: nat | c in run[n].calls && run[n].calls[c] == Getting(o.id) ::
           Enabled(run[n], CacheHit, c) <==> run[n].ttl <= 0 || run[n].now < run[q].now + run[n].ttl
    decreases n
  {
    assert StepAt(run, labels, n - 1);
    if q + 1 < n {
      CachedUntilRemoved(run, labels, q, n - 1, d);
      assert !RemovesAt(run, labels, n - 1, run[q].calls[d].order.id);
      EntryStays(run[n - 1], labels[n - 1].action, labels[n - 1].call, run[n], run[q].calls[d].order.id);
    }
  }

  // ---------- When staleness ends ----------

  /** A decided order of which neither the cache nor any Get about to fill it holds another version. */
  ghost predicate Settled(s: Sys, id: string) {
    && id in s.store && s.store[id].status != Pending
    && (id in s.cache && s.cache[id].payload.Json? ==> s.cache[id].payload.order == s.store[id])
    && FillsAgree(s, id, s.store[id])
  }

  ghost predicate FillsAgree(s: Sys, id: string, o: Order) {
    forall c | c in s.calls && s.calls[c].Filling? && s.calls[c].order.id == id :: s.calls[c].order == o
  }

  lemma NewFillAgrees(s: Sys, a: Action, c: nat)
    requires IDsOK(s) && Enabled(s, a, c) && !Environmental(a) && NextCall(s, a, c).Filling?
    ensures var o := NextCall(s, a, c).order; o.id in s.store && o == s.store[o.id]
  {
  }

  lemma FillsKept(s: Sys, a: Action, c: nat, s': Sys, id: string)
    requires IDsOK(s) && id in s.store && FillsAgree(s, id, s.store[id]) && Step(s, a, c, s')
    ensures FillsAgree(s', id, s.store[id])
  {
    if !Environmental(a) && NextCall(s, a, c).Filling? {
      NewFillAgrees(s, a, c);
    }
  }

  lemma SettledKept(s: Sys, a: Action, c: nat, s': Sys, id: string)
    requires IDsOK(s) && Settled(s, id) && Step(s, a, c, s')
    ensures Settled(s', id) && s'.store[id] == s.store[id]
  {
    StoreStep(s, a, c, s');
    FillsKept(s, a, c, s', id);
  }

  lemma SettledReadsStep(s: Sys, a: Action, c: nat, s': Sys, id: string)
    requires Settled(s, id) && Step(s, a, c, s')
    ensures a.InnerRead? && s.calls[c].id == id ==> !s'.calls[c].GetFailed?
    ensures (a.CacheHit? || (a.InnerRead? && !s.calls[c].fill)) && s.calls[c].id == id ==>
      s'.calls[c].GetDone? && s'.calls[c].order == s.store[id]
    ensures a.Fill? && s.calls[c].order.id == id ==> s'.calls[c].order == s.store[id]
  {
  }

  /** Once settled, settled for good. */
  lemma {:induction false} SettledForever(run: seq<Sys>, labels: seq<Label>, i: nat, j: nat, id: string)
    requires Run(run, labels) && i <= j < |run| && Settled(run[i], id)
    ensures Settled(run[j], id) && run[j].store[id] == run[i].store[id]
    decreases j
  {
    if i < j {
      SettledForever(run, labels, i, j - 1, id);
      SettledNext(run, labels, j - 1, id);
    }
  }

  /** From a settled state on, every Get of the order that ends, and every one that turns to the
    * store or the cache, finds the order as it is.
    */
  lemma SettledReads(run: seq<Sys>, labels: seq<Label>, i: nat, j: nat, id: string)
    requires Run(run, labels) && i <= j < |labels| && Settled(run[i], id)
    ensures StepAt(run, labels, j)
    ensures var Label(a, c), before, after, o := labels[j], run[j].calls, run[j + 1].calls, run[i].store[id];
      && (a.InnerRead? && before[c].id == id ==> !after[c].GetFailed?)
      && ((a.CacheHit? || (a.InnerRead? && !before[c].fill)) && before[c].id == id ==>
            after[c].GetDone? && after[c].order == o)
      && (a.Fill? && before[c].order.id == id ==> after[c].order == o)
  {
    SettledForever(run, labels, i, j, id);
    assert StepAt(run, labels, j);
    SettledReadsStep(run[j], labels[j].action, labels[j].call, run[j + 1], id);
  }

  lemma SettledNext(run: seq<Sys>, labels: seq<Label>, i: nat, id: string)
    requires Run(run, labels) && i < |labels| && Settled(run[i], id)
    ensures Settled(run[i + 1], id) && run[i + 1].store[id] == run[i].store[id]
  {
    InvRun(run, labels, i);
    assert StepAt(run, labels, i);
    SettledKept(run[i], labels[i].action, labels[i].call, run[i + 1], id);
  }

  /** A Get about to fill holds the decided order as it is, unless it read it while PENDING. */
  lemma FillIsCurrentUnlessPending(s: Sys, d: nat, id: string)
    requires HistOK(s) && ReadsOK(s) && id in s.store && s.store[id].status != Pending
    requires d in s.calls && s.calls[d].Filling? && s.calls[d].order.id == id
    ensures s.calls[d].order == s.store[id] <==> s.calls[d].order.status != Pending
  {
  }

  lemma InvalidationRemoves(s: Sys, c: nat, s': Sys, id: string)
    requires WinsOK(s) && Step(s, Invalidate(true), c, s') && id in Decided(s.calls[c])
    ensures id !in s'.cache && s'.store == s.store && id in s.store && s.store[id].status != Pending
    ensures forall d | d in s'.calls && s'.calls[d].Filling? :: d in s.calls && s.calls[d] == s'.calls[d]
    ensures forall d | d in s.calls && s.calls[d].Filling? :: d in s'.calls && s.calls[d] == s'.calls[d]
  {
  }

  lemma InvalidationSettlesStep(s: Sys, c: nat, s': Sys, id: string)
    requires Inv(s) && Step(s, Invalidate(true), c, s') && id in Decided(s.calls[c])
    ensures Settled(s', id) <==>
      !exists d :: d in s.calls && FillsPending(s.calls[d], id)
  {
    InvalidationRemoves(s, c, s', id);
    forall d | d in s.calls && s.calls[d].Filling? && s.calls[d].order.id == id
      ensures s.calls[d].order == s.store[id] <==> s.calls[d].order.status != Pending
    {
      FillIsCurrentUnlessPending(s, d, id);
    }
  }

  /** A successful invalidation by the call that decided an order settles it, unless and only unless
    * some Get that read the order while PENDING has yet to fill the cache.
    */
  lemma InvalidationSettles(run: seq<Sys>, labels: seq<Label>, i: nat, id: string)
    requires Run(run, labels) && i < |labels| && labels[i].action == Invalidate(true)
    ensures labels[i].call in run[i].calls
    ensures id in Decided(run[i].calls[labels[i].call]) ==>
      (Settled(run[i + 1], id) <==> !exists d :: d in run[i].calls && FillsPending(run[i].calls[d], id))
  {
    InvRun(run, labels, i);
    assert StepAt(run, labels, i);
    if id in Decided(run[i].calls[labels[i].call]) {
      InvalidationSettlesStep(run[i], labels[i].call, run[i + 1], id);
    }
  }

  /** A Get that has read the order while PENDING and is about to fill the cache with it. */
  predicate FillsPending(call: Call, id: string) {
    call.Filling? && call.order.id == id && call.order.status == Pending
  }
}
