/** What each call answers under concurrency: a Get, a confirm and a sweep what their own access to the
  * store found, each order won at most once, and no call stuck.
  */
module OrderAnswers {
  import opened Sequences
  import opened Orders
  import opened StackSpec
  import opened OrderStack
  import opened OrderCreation

  // ---------- What each call answers ----------

  /** Call c was made, before step n, as the given call. */
  ghost predicate MadeAs(labels: seq<Label>, n: nat, c: nat, call: Call) {
    exists q: nat :: q < n && q < |labels| && labels[q] == Label(Invoke(call), c)
  }

  /** At step p call c reads the store, and the order is not there. */
  predicate FindsNothing(run: seq<Sys>, labels: seq<Label>, p: nat, c: nat, id: string) {
    p < |labels| && p < |run| && labels[p] == Label(InnerRead, c) && id !in run[p].store
  }

  /** At step p call c confirms the order in the store, with result r. */
  ghost predicate ConfirmsAt(run: seq<Sys>, labels: seq<Label>, p: nat, c: nat, id: string, r: Result<bool>) {
    && p < |labels| && p + 1 < |run| && labels[p] == Label(InnerConfirm, c)
    && ConfirmsExactly(run[p].store, run[p + 1].store, id, run[p].now, r)
  }

  ghost predicate SweepsAt(run: seq<Sys>, labels: seq<Label>, p: nat, c: nat, cutoff: int, ids: seq<string>) {
    && p < |labels| && p + 1 < |run| && labels[p].action.InnerSweep? && labels[p].call == c
    && SweepsExactly(run[p].store, run[p + 1].store, ids, cutoff, labels[p].action.clock)
  }

  ghost predicate FoundNothing(run: seq<Sys>, labels: seq<Label>, n: nat, c: nat, id: string) {
    exists p: nat :: p < n && FindsNothing(run, labels, p, c, id)
  }

  ghost predicate Tried(run: seq<Sys>, labels: seq<Label>, n: nat, c: nat, id: string, r: Result<bool>) {
    MadeAs(labels, n, c, Confirming(id)) && exists p: nat :: p < n && ConfirmsAt(run, labels, p, c, id, r)
  }

  ghost predicate Swept(run: seq<Sys>, labels: seq<Label>, n: nat, c: nat, ids: seq<string>) {
    exists cutoff: int, p: nat :: p < n
      && MadeAs(labels, n, c, Sweeping(cutoff)) && SweepsAt(run, labels, p, c, cutoff, ids)
  }

  /** A call stands for what was asked, and what it has found out is what its own store access found. */
  ghost predicate Answered(run: seq<Sys>, labels: seq<Label>, n: nat, c: nat, call: Call) {
    match call
    case Getting(_) => MadeAs(labels, n, c, call)
    case Missed(id, _) => MadeAs(labels, n, c, Getting(id))
    case Filling(o, _) => MadeAs(labels, n, c, Getting(o.id))
    case GetDone(o, _) => MadeAs(labels, n, c, Getting(o.id))
    case GetFailed(id) => MadeAs(labels, n, c, Getting(id)) && FoundNothing(run, labels, n, c, id)
    case Confirming(_) => MadeAs(labels, n, c, call)
    case ConfirmInvalidating(id, won) => Tried(run, labels, n, c, id, Ok(won))
    case ConfirmEmitting(id) => Tried(run, labels, n, c, id, Ok(true))
    case ConfirmDone(id, won) => Tried(run, labels, n, c, id, Ok(won))
    case ConfirmFailed(id) => Tried(run, labels, n, c, id, Err(OrderNotFound))
    case Sweeping(_) => MadeAs(labels, n, c, call)
    case SweepInvalidating(ids) => Swept(run, labels, n, c, ids)
    case SweepEmitting(ids, _) => Swept(run, labels, n, c, ids)
    case SweepDone(ids) => Swept(run, labels, n, c, ids)
    case _ => true
  }

  lemma MadeLater(labels: seq<Label>, n: nat, c: nat, call: Call)
    requires MadeAs(labels, n, c, call)
    ensures MadeAs(labels, n + 1, c, call)
  {
    var q: nat :| q < n && q < |labels| && labels[q] == Label(Invoke(call), c);
  }

  lemma TriedLater(run: seq<Sys>, labels: seq<Label>, n: nat, c: nat, id: string, r: Result<bool>)
    requires Tried(run, labels, n, c, id, r)
    ensures Tried(run, labels, n + 1, c, id, r)
  {
    MadeLater(labels, n, c, Confirming(id));
    var p: nat :| p < n && ConfirmsAt(run, labels, p, c, id, r);
  }

  lemma SweptLater(run: seq<Sys>, labels: seq<Label>, n: nat, c: nat, ids: seq<string>)
    requires Swept(run, labels, n, c, ids)
    ensures Swept(run, labels, n + 1, c, ids)
  {
    var cutoff: int, p: nat :| p < n
      && MadeAs(labels, n, c, Sweeping(cutoff)) && SweepsAt(run, labels, p, c, cutoff, ids);
    MadeLater(labels, n, c, Sweeping(cutoff));
  }

  lemma FoundLater(run: seq<Sys>, labels: seq<Label>, n: nat, c: nat, id: string)
    requires FoundNothing(run, labels, n, c, id)
    ensures FoundNothing(run, labels, n + 1, c, id)
  {
    var p: nat :| p < n && FindsNothing(run, labels, p, c, id);
  }

  lemma AnsweredLater(run: seq<Sys>, labels: seq<Label>, n: nat, c: nat, call: Call)
    requires Answered(run, labels, n, c, call)
    ensures Answered(run, labels, n + 1, c, call)
  {
    match call
    case Getting(id) => MadeLater(labels, n, c, call);
    case Missed(id, _) => MadeLater(labels, n, c, Getting(id));
    case Filling(o, _) => MadeLater(labels, n, c, Getting(o.id));
    case GetDone(o, _) => MadeLater(labels, n, c, Getting(o.id));
    case GetFailed(id) =>
      MadeLater(labels, n, c, Getting(id));
      FoundLater(run, labels, n, c, id);
    case Confirming(_) => MadeLater(labels, n, c, call);
    case ConfirmInvalidating(id, won) => TriedLater(run, labels, n, c, id, Ok(won));
    case ConfirmEmitting(id) => TriedLater(run, labels, n, c, id, Ok(true));
    case ConfirmDone(id, won) => TriedLater(run, labels, n, c, id, Ok(won));
    case ConfirmFailed(id) => TriedLater(run, labels, n, c, id, Err(OrderNotFound));
    case Sweeping(_) => MadeLater(labels, n, c, call);
    case SweepInvalidating(ids) => SweptLater(run, labels, n, c, ids);
    case SweepEmitting(ids, _) => SweptLater(run, labels, n, c, ids);
    case SweepDone(ids) => SweptLater(run, labels, n, c, ids);
    case _ =>
  }

  /** The store access of a Get. */
  lemma ReadAnswered(run: seq<Sys>, labels: seq<Label>, n: nat, c: nat)
    requires Run(run, labels) && n < |labels| && labels[n] == Label(InnerRead, c) && IDsOK(run[n])
    requires c in run[n].calls && Answered(run, labels, n, c, run[n].calls[c])
    ensures StepAt(run, labels, n)
    ensures Answered(run, labels, n + 1, c, run[n + 1].calls[c])
  {
    assert StepAt(run, labels, n);
    var id := run[n].calls[c].id;
    MadeLater(labels, n, c, Getting(id));
    if id !in run[n].store {
      assert FindsNothing(run, labels, n, c, id);
    }
  }

  lemma ConfirmAnswered(run: seq<Sys>, labels: seq<Label>, n: nat, c: nat)
    requires Run(run, labels) && n < |labels| && labels[n] == Label(InnerConfirm, c)
    requires c in run[n].calls && Answered(run, labels, n, c, run[n].calls[c])
    ensures StepAt(run, labels, n)
    ensures Answered(run, labels, n + 1, c, run[n + 1].calls[c])
  {
    assert StepAt(run, labels, n);
    var id := run[n].calls[c].id;
    MadeLater(labels, n, c, Confirming(id));
    ConfirmIsExact(run[n].store, id, run[n].now);
    assert ConfirmsAt(run, labels, n, c, id, ConfirmResult(run[n].store, id));
  }

  lemma SweepAnswered(run: seq<Sys>, labels: seq<Label>, n: nat, c: nat)
    requires Run(run, labels) && n < |labels| && labels[n].action.InnerSweep? && labels[n].call == c
    requires c in run[n].calls && Answered(run, labels, n, c, run[n].calls[c])
    ensures StepAt(run, labels, n)
    ensures Answered(run, labels, n + 1, c, run[n + 1].calls[c])
  {
    var a := labels[n].action;
    assert StepAt(run, labels, n);
    var cutoff := run[n].calls[c].cutoff;
    MadeLater(labels, n, c, Sweeping(cutoff));
    SweepIsExact(run[n].store, a.found, cutoff, a.clock);
    assert SweepsAt(run, labels, n, c, cutoff, a.found);
  }

  /** A step of the call's own that does not touch the store. */
  lemma OutsideStoreAnswered(run: seq<Sys>, labels: seq<Label>, n: nat, c: nat, s: Sys, a: Action)
    requires Enabled(s, a, c) && ReadsOK(s) && c in s.calls && Answered(run, labels, n, c, s.calls[c])
    requires a.NoClient? || a.CacheHit? || a.CacheMiss? || a.Fill? || a.Invalidate? || a.Emit?
          || a.Insert? || a.CopyStatus? || a.CopyTime?
    ensures Answered(run, labels, n, c, NextCall(s, a, c))
  {
  }

  lemma OwnStepAnswered(run: seq<Sys>, labels: seq<Label>, n: nat, c: nat)
    requires Run(run, labels) && n < |labels| && labels[n].call == c && !Environmental(labels[n].action)
    requires Inv(run[n]) && (c in run[n].calls ==> Answered(run, labels, n, c, run[n].calls[c]))
    ensures c in run[n + 1].calls && Answered(run, labels, n + 1, c, run[n + 1].calls[c])
  {
    var s, a := run[n], labels[n].action;
    assert StepAt(run, labels, n);
    if a.InnerRead? {
      ReadAnswered(run, labels, n, c);
    } else if a.InnerConfirm? {
      ConfirmAnswered(run, labels, n, c);
    } else if a.InnerSweep? {
      SweepAnswered(run, labels, n, c);
    } else if a.Invoke? {
      assert MadeAs(labels, n + 1, c, a.call);
    } else if !a.Reserve? {
      OutsideStoreAnswered(run, labels, n, c, s, a);
      AnsweredLater(run, labels, n, c, NextCall(s, a, c));
    }
  }

  lemma AnsweredNext(run: seq<Sys>, labels: seq<Label>, n: nat, c: nat)
    requires Run(run, labels) && n < |labels| && c in run[n + 1].calls
    requires c in run[n].calls ==> Answered(run, labels, n, c, run[n].calls[c])
    ensures Answered(run, labels, n + 1, c, run[n + 1].calls[c])
  {
    if labels[n].call == c && !Environmental(labels[n].action) {
      InvRun(run, labels, n);
      OwnStepAnswered(run, labels, n, c);
    } else {
      assert StepAt(run, labels, n);
      AnsweredLater(run, labels, n, c, run[n].calls[c]);
    }
  }

  /** In every reachable state each call answers what was asked, with what its own access to the store
    * found: a Get its order's id, not found only if it was not there; a confirm lost, won or failed as
    * the order then was; a sweep exactly the stale orders.
    */
  lemma {:induction false} AnswersInRun(run: seq<Sys>, labels: seq<Label>, n: nat, c: nat)
    requires Run(run, labels) && n < |run| && c in run[n].calls
    ensures Answered(run, labels, n, c, run[n].calls[c])
  {
    if n > 0 {
      if c in run[n - 1].calls {
        AnswersInRun(run, labels, n - 1, c);
      }
      AnsweredNext(run, labels, n - 1, c);
    }
  }

  /** A call that has found the order, and will end with it. */
  predicate HasOrder(call: Call, o: Order, read: nat) {
    call == Filling(o, read) || call == GetDone(o, FromStore(read))
  }

  /** A Get that reads the store at step p ends by that: with the very order, if it is there, else not found. */
  lemma {:induction false} ReadDecidesAnswer(run: seq<Sys>, labels: seq<Label>, p: nat, n: nat, c: nat)
    requires Run(run, labels) && p < n < |run| && labels[p] == Label(InnerRead, c)
    ensures c in run[p].calls && run[p].calls[c].Missed? && c in run[n].calls
    ensures var id, st := run[p].calls[c].id, run[p].store;
      if id in st then HasOrder(run[n].calls[c], st[id], p + 1) else run[n].calls[c] == GetFailed(id)
    decreases n
  {
    assert StepAt(run, labels, n - 1);
    HistoryIsTheRun(run, labels, p);
    if p + 1 < n {
      ReadDecidesAnswer(run, labels, p, n - 1, c);
    }
  }

  /** What a confirm has come to, once it has tried. */
  function ConfirmOutcome(call: Call): Result<bool>
    requires call.ConfirmInvalidating? || call.ConfirmEmitting? || call.ConfirmDone? || call.ConfirmFailed?
  {
    match call
    case ConfirmInvalidating(_, won) => Ok(won)
    case ConfirmEmitting(_) => Ok(true)
    case ConfirmDone(_, won) => Ok(won)
    case ConfirmFailed(_) => Err(OrderNotFound)
  }

  /** The ids a sweep has found, once it has swept. */
  predicate HasSwept(call: Call, ids: seq<string>) {
    (call.SweepInvalidating? || call.SweepEmitting? || call.SweepDone?) && call.ids == ids
  }

  /** What a confirm ends with is decided by the order's state at its own step p. */
  lemma {:induction false} ConfirmDecidesAnswer(run: seq<Sys>, labels: seq<Label>, p: nat, n: nat, c: nat)
    requires Run(run, labels) && p < n < |run| && labels[p] == Label(InnerConfirm, c)
    ensures c in run[p].calls && run[p].calls[c].Confirming? && c in run[n].calls
    ensures var call := run[n].calls[c];
      && (call.ConfirmInvalidating? || call.ConfirmEmitting? || call.ConfirmDone? || call.ConfirmFailed?)
      && var id, st := run[p].calls[c].id, run[p].store;
         && call.id == id
         && (ConfirmOutcome(call) == Err(OrderNotFound) <==> id !in st)
         && (ConfirmOutcome(call) == Ok(true) <==> id in st && st[id].status == Pending)
    decreases n
  {
    assert StepAt(run, labels, n - 1);
    if p + 1 < n {
      ConfirmDecidesAnswer(run, labels, p, n - 1, c);
    }
  }

  /** What a sweep ends with is what it found at its own step p: exactly the orders then stale. */
  lemma {:induction false} SweepDecidesAnswer(run: seq<Sys>, labels: seq<Label>, p: nat, n: nat, c: nat)
    requires Run(run, labels) && p < n < |run| && labels[p].action.InnerSweep? && labels[p].call == c
    ensures c in run[p].calls && run[p].calls[c].Sweeping? && c in run[n].calls
    ensures HasSwept(run[n].calls[c], labels[p].action.found)
    ensures var InnerSweep(clock, found) := labels[p].action;
      SweepsExactly(run[p].store, run[p + 1].store, found, run[p].calls[c].cutoff, clock)
    decreases n
  {
    assert StepAt(run, labels, n - 1);
    if p + 1 < n {
      SweepDecidesAnswer(run, labels, p, n - 1, c);
    } else {
      SweepIsExact(run[p].store, labels[p].action.found, run[p].calls[c].cutoff, labels[p].action.clock);
    }
  }

  /** A Get has failed exactly when, at its own read, the order asked for was not in the store. */
  lemma GetFailedIff(run: seq<Sys>, labels: seq<Label>, n: nat, c: nat, id: string)
    requires Run(run, labels) && n < |run| && c in run[n].calls && MadeAs(labels, n, c, Getting(id))
    ensures run[n].calls[c] == GetFailed(id) <==> FoundNothing(run, labels, n, c, id)
  {
    AnswersInRun(run, labels, n, c);
    if p: nat :| p < n && FindsNothing(run, labels, p, c, id) {
      ReadDecidesAnswer(run, labels, p, n, c);
      AnswersInRun(run, labels, p, c);
      MadeOnce(run, labels, p, c, id, n);
    }
  }

  /** A call is made once: what it was made as before step p it was made as at all. */
  lemma MadeOnce(run: seq<Sys>, labels: seq<Label>, p: nat, c: nat, id: string, n: nat)
    requires Run(run, labels) && p < n < |run| && c in run[p].calls && run[p].calls[c].Missed?
    requires MadeAs(labels, p, c, Getting(run[p].calls[c].id)) && MadeAs(labels, n, c, Getting(id))
    ensures run[p].calls[c].id == id
  {
    var q: nat :| q < p && q < |labels| && labels[q] == Label(Invoke(Getting(run[p].calls[c].id)), c);
    var r: nat :| r < n && r < |labels| && labels[r] == Label(Invoke(Getting(id)), c);
    assert StepAt(run, labels, q) && StepAt(run, labels, r);
    if q < r {
      CallsStay(run, labels, q + 1, r, c);
    } else if r < q {
      CallsStay(run, labels, r + 1, q, c);
    }
  }

  lemma {:induction false} CallsStay(run: seq<Sys>, labels: seq<Label>, i: nat, j: nat, c: nat)
    requires Run(run, labels) && i <= j < |run| && c in run[i].calls
    ensures c in run[j].calls
    decreases j
  {
    if i < j {
      CallsStay(run, labels, i, j - 1, c);
      assert StepAt(run, labels, j - 1);
    }
  }

  // ---------- Who wins an order ----------

  /** The race between confirming and sweeping: no two calls win the same order, an order has been
    * won exactly when it is no longer PENDING, and the winner's verdict is its status from then on.
    */
  lemma WonAtMostOnce(run: seq<Sys>, labels: seq<Label>, i: nat, id: string)
    requires Run(run, labels) && i < |run| && id in run[i].store
    ensures forall c, d | c in run[i].calls && d in run[i].calls ::
      id in Decided(run[i].calls[c]) && id in Decided(run[i].calls[d]) ==> c == d
    ensures run[i].store[id].status != Pending <==> exists c :: c in run[i].calls && id in Decided(run[i].calls[c])
    ensures forall c, j | c in run[i].calls && id in Decided(run[i].calls[c]) && i <= j < |run| ::
      id in run[j].store && run[j].store[id].status == Verdict(run[i].calls[c])
    ensures forall c | c in run[i].calls && run[i].calls[c].SweepDone? ::
      forall other | other in run[i].calls[c].ids :: other in run[i].store && run[i].store[other].status == Canceled
  {
    InvRun(run, labels, i);
    forall j | i <= j < |run| ensures StoreEvolves(run[i].store, run[j].store) {
      StoreOverTime(run, labels, i, j);
    }
    forall c | c in run[i].calls && run[i].calls[c].SweepDone?
      ensures forall other | other in run[i].calls[c].ids ::
        other in run[i].store && run[i].store[other].status == Canceled
    {
      forall other | other in run[i].calls[c].ids ensures other in Decided(run[i].calls[c]) {
      }
    }
  }

  // ---------- Every call can go on ----------

  predicate Finished(call: Call) {
    || call.CreateDone? || call.GetDone? || call.GetFailed?
    || call.ConfirmDone? || call.ConfirmFailed? || call.SweepDone?
  }

  lemma {:induction false} CanEnumerate(ids: set<string>) returns (found: seq<string>)
    ensures Enumerates(found, ids)
  {
    if ids == {} {
      found := [];
    } else {
      var id :| id in ids;
      var rest := CanEnumerate(ids - {id});
      found := rest + [id];
    }
  }

  lemma ReservedEarlier(run: seq<Sys>, labels: seq<Label>, n: nat, c: nat)
    requires Run(run, labels) && n < |run| && c in run[n].calls
    ensures run[n].calls[c].Reserved? ==> run[n].calls[c].since <= run[n].now
  {
    CreateTracedInRun(run, labels, n, c);
    if run[n].calls[c].Reserved? {
      var Reserved(_, customerID, items, since) := run[n].calls[c];
      var q: nat :| q < n && ReservesAt(run, labels, q, c, customerID, items) && run[q].now == since;
      StoreOverTime(run, labels, q, n);
    }
  }

  /** No call is ever stuck, whatever the others do: it has a step to take until it has answered. */
  lemma CallsGoOn(run: seq<Sys>, labels: seq<Label>, n: nat, c: nat) returns (a: Action)
    requires Run(run, labels) && n < |run| && c in run[n].calls && !Finished(run[n].calls[c])
    ensures Enabled(run[n], a, c) && !Environmental(a) && !a.Invoke?
  {
    var s, call := run[n], run[n].calls[c];
    InvRun(run, labels, n);
    ReservedEarlier(run, labels, n, c);
    assert SweepOK(call);
    match call
    case Reserved(_, _, _, _) => a := Insert(s.now);
    case Inserted(id) =>
      a := CopyStatus;
      assert Issued(call) == Ok(id);
    case HalfCopied(id, half) =>
      a := if half.StatusRead? then CopyTime else CopyStatus;
      assert Issued(call) == Ok(id);
    case Getting(_) => a := CacheMiss;
    case Missed(_, _) => a := InnerRead;
    case Filling(_, _) => a := Fill(true);
    case Confirming(_) => a := InnerConfirm;
    case Sweeping(cutoff) =>
      var found := CanEnumerate(StaleIDs(s.store, cutoff));
      a := InnerSweep(_ => 0, found);
    case ConfirmInvalidating(_, _) => a := Invalidate(true);
    case SweepInvalidating(_) => a := Invalidate(true);
    case _ => a := Emit(true);
  }
}
