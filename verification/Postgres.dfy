/** The Postgres store: one row per order, every SQL statement atomic. ConfirmPending takes two
  * statements, so those of other sessions can run in between.
  */
module Postgres {
  import opened Sequences
  import opened Orders

  datatype Table = Table(rows: Store, sequence: nat)

  /** The statements that change rows. */
  datatype Statement =
    | InsertRow(customerID: string, items: seq<Item>, now: int)
    | ConfirmRow(id: string, now: int)
    | CancelRows(cutoff: int, now: int)

  function Exec(t: Table, stmt: Statement): Table {
    match stmt
    case InsertRow(customerID, items, now) =>
      var id := OrderID(t.sequence + 1);
      Table(if id in t.rows then t.rows else t.rows[id := NewOrder(id, customerID, items, now)], t.sequence + 1)
    case ConfirmRow(id, now) => t.(rows := ConfirmedStore(t.rows, id, now))
    case CancelRows(cutoff, now) => t.(rows := SweptStore(t.rows, cutoff, _ => now))
  }

  /** The table after the first k of the statements. */
  function ExecAll(t: Table, stmts: seq<Statement>, k: nat): Table
    requires k <= |stmts|
  {
    if k == 0 then t else Exec(ExecAll(t, stmts, k - 1), stmts[k - 1])
  }

  lemma ExecEvolves(t: Table, stmt: Statement)
    ensures StoreEvolves(t.rows, Exec(t, stmt).rows)
  {
  }

  /** Rows are never deleted and never return to PENDING. */
  lemma {:induction false} RowsEvolve(t: Table, stmts: seq<Statement>, j: nat, k: nat)
    requires j <= k <= |stmts|
    ensures StoreEvolves(ExecAll(t, stmts, j).rows, ExecAll(t, stmts, k).rows)
    decreases k
  {
    if j < k {
      RowsEvolve(t, stmts, j, k - 1);
      ExecEvolves(ExecAll(t, stmts, k - 1), stmts[k - 1]);
      EvolvesTransitively(ExecAll(t, stmts, j).rows, ExecAll(t, stmts, k - 1).rows, ExecAll(t, stmts, k).rows);
    }
  }

  class PostgresStore {
    var connected: bool
    var table: Table

    constructor ()
      ensures !connected && table == Table(map[], 0)
    {
      connected, table := false, Table(map[], 0);
    }

    method Execute(stmt: Statement)
      modifies this`table
      ensures table == Exec(old(table), stmt)
    {
      table := Exec(table, stmt);
    }

    /** A failed insert has still drawn a number from the sequence. */
    method Create(customerID: string, items: seq<Item>, now: int) returns (r: Result<Order>)
      modifies this`table
      ensures !connected ==> r == Err(NotConnected) && table == old(table)
      ensures connected ==> table == Exec(old(table), InsertRow(customerID, items, now))
      ensures connected ==> table.sequence == old(table).sequence + 1
      ensures connected ==> (r.Ok? <==> OrderID(table.sequence) !in old(table).rows)
      ensures r.Ok? ==> r.value.id == OrderID(table.sequence)
      ensures r.Ok? ==> table.rows == old(table).rows[r.value.id := r.value]
      ensures r.Ok? ==> InsertsExactly(old(table).rows, table.rows, r.value, customerID, items, now)
      ensures connected && r.Err? ==> r == Err(StatementFailed) && table.rows == old(table).rows
    {
      if !connected {
        return Err(NotConnected);
      }
      var id := OrderID(table.sequence + 1);
      var taken := id in table.rows;
      Execute(InsertRow(customerID, items, now));
      r := if taken then Err(StatementFailed) else Ok(NewOrder(id, customerID, items, now));
    }

    method Get(id: string) returns (r: Result<Order>)
      ensures r == if connected then Lookup(table.rows, id) else Err(NotConnected)
      ensures connected ==> r == if id in table.rows then Ok(table.rows[id]) else Err(OrderNotFound)
    {
      if !connected {
        return Err(NotConnected);
      }
      r := Lookup(table.rows, id);
    }

    /** between: what other sessions execute after the update and before the existence check. */
    method ConfirmPending(id: string, now: int, between: seq<Statement>) returns (r: Result<bool>)
      modifies this`table
      ensures !connected ==> r == Err(NotConnected) && table == old(table)
      ensures connected ==> r == ConfirmAnswer(old(table), id, between)
      ensures connected ==> (r == Ok(true) <==> id in old(table).rows && old(table).rows[id].status == Pending)
      ensures connected && r != Ok(true) ==> r == if id in table.rows then Ok(false) else Err(OrderNotFound)
      ensures connected && r == Ok(true) ==> table == Exec(old(table), ConfirmRow(id, now))
      ensures connected && r == Ok(true) ==> ConfirmsExactly(old(table).rows, table.rows, id, now, r)
      ensures connected && r != Ok(true) ==> table == ExecAll(old(table), between, |between|)
      ensures connected ==>
        (ExplainedByOneConfirm(old(table), id, between, r) <==> !CreatedMeanwhile(old(table), id, between))
    {
      if !connected {
        return Err(NotConnected);
      }
      var affected := id in table.rows && table.rows[id].status == Pending;
      Execute(ConfirmRow(id, now));
      ConfirmIsExact(old(table).rows, id, now);
      TwoStatementsAreAtomicIff(old(table), id, between);
      if affected {
        return Ok(true);
      }
      for i := 0 to |between|
        invariant table == ExecAll(old(table), between, i)
      {
        Execute(between[i]);
      }
      r := if id in table.rows then Ok(false) else Err(OrderNotFound);
    }

    method CancelStalePending(cutoff: int, now: int) returns (r: Result<seq<string>>)
      modifies this`table
      ensures !connected ==> r == Err(NotConnected) && table == old(table)
      ensures connected ==> table == Exec(old(table), CancelRows(cutoff, now))
      ensures connected ==> r.Ok? && Enumerates(r.value, StaleIDs(old(table).rows, cutoff))
      ensures connected ==> SweepsExactly(old(table).rows, table.rows, r.value, cutoff, _ => now)
    {
      if !connected {
        return Err(NotConnected);
      }
      var returned := StaleIDs(table.rows, cutoff);
      Execute(CancelRows(cutoff, now));
      var ids := [];
      while returned != {}
        invariant returned <= StaleIDs(old(table).rows, cutoff)
        invariant Enumerates(ids, StaleIDs(old(table).rows, cutoff) - returned)
        decreases |returned|
      {
        var id :| id in returned;
        ids, returned := ids + [id], returned - {id};
      }
      SweepIsExact(old(table).rows, ids, cutoff, _ => now);
      r := Ok(ids);
    }
  }

  /** What ConfirmPending answers: the update's row count decides, else the later existence check. */
  function ConfirmAnswer(t: Table, id: string, between: seq<Statement>): Result<bool> {
    if ConfirmResult(t.rows, id) == Ok(true) then Ok(true)
    else if id in ExecAll(t, between, |between|).rows then Ok(false)
    else Err(OrderNotFound)
  }

  /** Some moment during the call at which one atomic confirm would have answered r; a true answer
    * must be that of the first statement, the only one that changes anything.
    */
  ghost predicate ExplainedByOneConfirm(t: Table, id: string, between: seq<Statement>, r: Result<bool>) {
    exists k | 0 <= k <= |between| :: ConfirmResult(ExecAll(t, between, k).rows, id) == r && (r == Ok(true) ==> k == 0)
  }

  /** The order did not exist at the update and is there, still PENDING, at the existence check. */
  predicate CreatedMeanwhile(t: Table, id: string, between: seq<Statement>) {
    var last := ExecAll(t, between, |between|).rows;
    id !in t.rows && id in last && last[id].status == Pending
  }

  /** The two statements act as one atomic confirm, except exactly when the order is inserted
    * between them and not decided before the second.
    */
  lemma TwoStatementsAreAtomicIff(t: Table, id: string, between: seq<Statement>)
    ensures ExplainedByOneConfirm(t, id, between, ConfirmAnswer(t, id, between)) <==> !CreatedMeanwhile(t, id, between)
  {
    var n, r := |between|, ConfirmAnswer(t, id, between);
    if CreatedMeanwhile(t, id, between) {
      forall k | 0 <= k <= n ensures ConfirmResult(ExecAll(t, between, k).rows, id) != r {
        RowsEvolve(t, between, k, n);
      }
    } else if id in t.rows || id !in ExecAll(t, between, n).rows {
      RowsEvolve(t, between, 0, n);
      assert ConfirmResult(ExecAll(t, between, 0).rows, id) == r;
    } else {
      assert ConfirmResult(ExecAll(t, between, n).rows, id) == r;
    }
  }

  /** The exception happens: a PENDING order is reported as no longer pending. */
  lemma PendingOrderReportedDecided()
    ensures var t, id, between := Table(map[], 0), OrderID(1), [InsertRow("c", [], 0)];
      && ConfirmAnswer(t, id, between) == Ok(false)
      && ExecAll(t, between, 1).rows[id].status == Pending
      && !ExplainedByOneConfirm(t, id, between, Ok(false))
  {
  }
}
