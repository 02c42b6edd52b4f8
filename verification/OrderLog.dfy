/** The event log under concurrency, and what can be rebuilt from it. */
module OrderLog {
  import opened Sequences
  import opened Orders
  import opened StackSpec
  import opened OrderStack

  // ---------- The event log ----------

  /** At most one created and one terminal event per order, and a terminal event is the truth about
    * the order now and at every later step.
    */
  lemma LogIsTruthful(run: seq<Sys>, labels: seq<Label>, i: nat, k: nat)
    requires Run(run, labels) && i < |run| && k < |run[i].log|
    ensures AtMostOnce(run[i].log)
    ensures var ev := run[i].log[k].event;
      Terminal(ev) ==> forall j | i <= j < |run| ::
        ev.orderID in run[j].store && run[j].store[ev.orderID].status == ev.status
    ensures var Logged(ev, c) := run[i].log[k]; c in run[i].calls && match ev.kind
      case EventCreated => run[i].calls[c].CreateDone? && Announces(ev, run[i].calls[c].order)
      case EventConfirmed => ev.status == Confirmed && ev.customerID == "" && ev.orderID in Decided(run[i].calls[c])
      case EventCanceled => ev.status == Canceled && ev.customerID == "" && ev.orderID in Decided(run[i].calls[c])
  {
    InvRun(run, labels, i);
    var g := run[i].log[k];
    assert RecordOK(run[i], g);
    if Terminal(g.event) {
      assert RecordOK(run[i], g);
      ToldIsDecided(run[i].calls[g.caller]);
      forall j | i <= j < |run| ensures StoreEvolves(run[i].store, run[j].store) {
        StoreOverTime(run, labels, i, j);
      }
    }
  }

  datatype Fact = Fact(kind: EventType, id: string)

  ghost function Facts(log: seq<Logged>): set<Fact> {
    set i | 0 <= i < |log| :: Fact(log[i].event.kind, log[i].event.orderID)
  }

  /** The status of every order as told by a set of events, whatever order they arrived in. */
  ghost function Replay(facts: set<Fact>): map<string, Status> {
    map f | f in facts && f.kind == EventCreated :: f.id :=
      if Fact(EventConfirmed, f.id) in facts then Confirmed
      else if Fact(EventCanceled, f.id) in facts then Canceled
      else Pending
  }

  /** No call is in flight. */
  ghost predicate Quiet(s: Sys) {
    forall c | c in s.calls :: var call := s.calls[c];
      || call.CreateDone? || call.GetDone? || call.GetFailed?
      || call.ConfirmDone? || call.ConfirmFailed? || call.SweepDone?
  }

  function KindOf(verdict: Status): EventType {
    match verdict
    case Pending => EventCreated
    case Confirmed => EventConfirmed
    case Canceled => EventCanceled
  }

  /** A terminal record tells the status its order has. */
  lemma RecordTellsStatus(s: Sys, g: Logged)
    requires WinsOK(s) && RecordOK(s, g) && Terminal(g.event)
    ensures g.event.orderID in s.store && g.event.kind == KindOf(s.store[g.event.orderID].status)
  {
    ToldIsDecided(s.calls[g.caller]);
  }

  lemma RecordTellsCreation(s: Sys, g: Logged)
    requires IDsOK(s) && RecordOK(s, g) && !Terminal(g.event)
    ensures g.event.orderID in s.store
  {
  }

  lemma DecisionIsLogged(s: Sys, id: string)
    requires WinsOK(s) && LogOK(s) && s.reliable && Quiet(s) && id in s.store && s.store[id].status != Pending
    ensures InLog(s.log, id, true)
  {
  }

  lemma CreationIsLogged(s: Sys, id: string)
    requires IDsOK(s) && LogOK(s) && s.reliable && Quiet(s) && id in s.store
    ensures InLog(s.log, id, false)
  {
  }

  lemma FactIsTrue(s: Sys, i: nat, id: string, verdict: Status)
    requires IDsOK(s) && WinsOK(s) && LogOK(s) && i < |s.log|
    requires s.log[i].event.kind == KindOf(verdict) && s.log[i].event.orderID == id
    ensures id in s.store && (verdict == Pending || s.store[id].status == verdict)
  {
    assert RecordOK(s, s.log[i]);
    if verdict == Pending {
      RecordTellsCreation(s, s.log[i]);
    } else {
      RecordTellsStatus(s, s.log[i]);
    }
  }

  lemma TruthIsTold(s: Sys, id: string, verdict: Status) returns (i: nat)
    requires IDsOK(s) && WinsOK(s) && LogOK(s) && s.reliable && Quiet(s)
    requires id in s.store && (verdict == Pending || s.store[id].status == verdict)
    ensures i < |s.log| && s.log[i].event.kind == KindOf(verdict) && s.log[i].event.orderID == id
  {
    if verdict == Pending {
      CreationIsLogged(s, id);
    } else {
      DecisionIsLogged(s, id);
    }
    i :| i < |s.log| && s.log[i].event.orderID == id && Terminal(s.log[i].event) == (verdict != Pending);
    assert RecordOK(s, s.log[i]);
    if verdict != Pending {
      RecordTellsStatus(s, s.log[i]);
    }
  }

  lemma FactsTellStatus(s: Sys, id: string, verdict: Status)
    requires IDsOK(s) && WinsOK(s) && LogOK(s) && s.reliable && Quiet(s)
    ensures FactTells(Facts(s.log), s.store, id, verdict)
  {
    if Fact(KindOf(verdict), id) in Facts(s.log) {
      var i :| 0 <= i < |s.log| && Fact(s.log[i].event.kind, s.log[i].event.orderID) == Fact(KindOf(verdict), id);
      FactIsTrue(s, i, id, verdict);
    }
    if id in s.store && (verdict == Pending || s.store[id].status == verdict) {
      var i := TruthIsTold(s, id, verdict);
      assert Fact(s.log[i].event.kind, s.log[i].event.orderID) in Facts(s.log);
    }
  }

  /** With a publisher that never fails, and no call in flight, replaying the log in any order
    * rebuilds the status of every order.
    */
  lemma ReplayRebuildsStore(run: seq<Sys>, labels: seq<Label>, i: nat)
    requires Run(run, labels) && i < |run| && run[i].reliable && Quiet(run[i])
    ensures Replay(Facts(run[i].log)) == map id | id in run[i].store :: run[i].store[id].status
  {
    InvRun(run, labels, i);
    forall id, verdict ensures FactTells(Facts(run[i].log), run[i].store, id, verdict) {
      FactsTellStatus(run[i], id, verdict);
    }
    ReplayMatches(Facts(run[i].log), run[i].store);
  }

  ghost predicate FactTells(facts: set<Fact>, st: Store, id: string, verdict: Status) {
    Fact(KindOf(verdict), id) in facts <==> id in st && (verdict == Pending || st[id].status == verdict)
  }

  lemma ReplayMatches(facts: set<Fact>, st: Store)
    requires forall id, verdict :: FactTells(facts, st, id, verdict)
    ensures Replay(facts) == map id | id in st :: st[id].status
  {
    forall id ensures id in Replay(facts) <==> id in st {
      assert FactTells(facts, st, id, Pending);
    }
    forall id | id in st ensures Replay(facts)[id] == st[id].status {
      assert FactTells(facts, st, id, Confirmed);
      assert FactTells(facts, st, id, Canceled);
    }
  }
}
