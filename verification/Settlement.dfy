/** Settling trades into positions exactly once: the outbox row is written first, in the same transaction
    as both position updates (biz/service/event_processor_position.go, biz/dal/pg/outbox_repo.go). */
module Settlement {
  import opened Options
  import opened Int64s
  import opened Matching
  import opened Positions

  /** Quantities and prices reach the position functions through text; only that the conversion is a
      function of the amount is used. */
  datatype Conversion = Conversion(qty: Int64 -> Int64, price: Int64 -> Int64)

  /** The two tables; an outbox row is its payload, the trade, and its event id is the trade id. */
  datatype Db = Db(outbox: seq<Trade>, positions: Table)

  predicate Marked(outbox: seq<Trade>, id: string) {
    exists i :: 0 <= i < |outbox| && outbox[i].tradeId == id
  }

  /** Taker first, then maker, as the taker's side directs. */
  function Settled(cv: Conversion, t: Table, e: Trade): Option<Table> {
    var q, p := cv.qty(e.quantity), cv.price(e.price);
    var taker, maker := Key(e.takerUser, e.symbol), Key(e.makerUser, e.symbol);
    if e.takerSide == "buy" then
      var first := Bought(t, taker, q, p);
      if first.None? then None else Sold(first.value, maker, q)
    else
      var first := Sold(t, taker, q);
      if first.None? then None else Bought(first.value, maker, q, p)
  }

  /** Database errors that can strike one transaction. */
  datatype Faults = Faults(insert: bool, first: bool, second: bool, commit: bool)

  const NO_FAULTS := Faults(false, false, false, false)

  predicate Faulty(f: Faults) {
    f.insert || f.first || f.second || f.commit
  }

  /** Whether the transaction for a trade commits a change. */
  predicate Commits(cv: Conversion, db: Db, e: Trade, f: Faults) {
    !Faulty(f) && !Marked(db.outbox, e.tradeId) && Settled(cv, db.positions, e).Some?
  }

  function Handled(cv: Conversion, db: Db, e: Trade, f: Faults): Db {
    if Commits(cv, db, e, f) then Db(db.outbox + [e], Settled(cv, db.positions, e).value) else db
  }

  /** Whether the processor reports success: committed, or found already processed without a fault
      striking the insert or the commit of the empty transaction. */
  predicate Reported(cv: Conversion, db: Db, e: Trade, f: Faults) {
    Commits(cv, db, e, f) || (Marked(db.outbox, e.tradeId) && !f.insert && !f.commit)
  }

  class PositionProcessor {
    const cv: Conversion
    const table: PositionTable
    var outbox: seq<Trade>

    ghost function State(): Db
      reads this, table
    {
      Db(outbox, table.rows)
    }

    constructor (cv: Conversion, db: Db)
      ensures State() == db && fresh(table)
    {
      this.cv := cv;
      outbox := db.outbox;
      table := new PositionTable(db.positions);
    }

    /** Insert unless a row with this event id exists. */
    method WriteOutboxEntryIfNotExists(e: Trade) returns (inserted: bool)
      modifies this
      ensures inserted == !Marked(old(outbox), e.tradeId)
      ensures outbox == if inserted then old(outbox) + [e] else old(outbox)
    {
      inserted := true;
      var i := 0;
      while i < |outbox|
        invariant 0 <= i <= |outbox| && outbox == old(outbox)
        invariant forall j :: 0 <= j < i ==> outbox[j].tradeId != e.tradeId
      {
        if outbox[i].tradeId == e.tradeId {
          return false;
        }
        i := i + 1;
      }
      outbox := outbox + [e];
    }

    /** The updates inside the transaction; an error leaves both tables half changed. */
    method UpdatePositions(e: Trade, f: Faults) returns (ok: bool)
      modifies table
      ensures ok <==> !f.first && !f.second && Settled(cv, old(table.rows), e).Some?
      ensures ok ==> table.rows == Settled(cv, old(table.rows), e).value
    {
      var q, p := cv.qty(e.quantity), cv.price(e.price);
      if f.first {
        return false;
      }
      if e.takerSide == "buy" {
        ok := table.BuyPositionTx(e.takerUser, e.symbol, q, p);
        if !ok || f.second {
          return false;
        }
        ok := table.SellPositionTx(e.makerUser, e.symbol, q);
      } else {
        ok := table.SellPositionTx(e.takerUser, e.symbol, q);
        if !ok || f.second {
          return false;
        }
        ok := table.BuyPositionTx(e.makerUser, e.symbol, q, p);
      }
    }

    method HandleTradeExecutedTransactional(e: Trade, f: Faults) returns (ok: bool)
      modifies this, table
      ensures State() == Handled(cv, old(State()), e, f)
      ensures ok == Reported(cv, old(State()), e, f)
    {
      var savedOutbox, savedRows := outbox, table.rows;
      if f.insert {
        return false;
      }
      var inserted := WriteOutboxEntryIfNotExists(e);
      if !inserted {
        return !f.commit;
      }
      ok := UpdatePositions(e, f);
      if !ok || f.commit {
        outbox, table.rows := savedOutbox, savedRows;
        ok := false;
      }
    }
  }

  // ---- runs of deliveries with duplicates and failures ----

  datatype Delivery = Delivery(trade: Trade, faults: Faults)

  function Run(cv: Conversion, db: Db, ds: seq<Delivery>): Db
    decreases |ds|
  {
    if ds == [] then db else Run(cv, Handled(cv, db, ds[0].trade, ds[0].faults), ds[1..])
  }

  /** The effects of the listed trades, one after the other. */
  function Fold(cv: Conversion, t: Table, trades: seq<Trade>): Option<Table> {
    if trades == [] then Some(t)
    else
      var before := Fold(cv, t, trades[..|trades| - 1]);
      if before.None? then None else Settled(cv, before.value, trades[|trades| - 1])
  }

  ghost predicate DistinctTrades(trades: seq<Trade>) {
    forall i, j :: 0 <= i < j < |trades| ==> trades[i].tradeId != trades[j].tradeId
  }

  /** Exactly once: the positions are the fold of the outbox rows in insertion order, each id once. */
  ghost predicate ExactlyOnce(cv: Conversion, initial: Table, db: Db) {
    DistinctTrades(db.outbox) && Fold(cv, initial, db.outbox) == Some(db.positions)
  }

  lemma HandledKeepsExactlyOnce(cv: Conversion, initial: Table, db: Db, e: Trade, f: Faults)
    requires ExactlyOnce(cv, initial, db)
    ensures ExactlyOnce(cv, initial, Handled(cv, db, e, f))
  {
    if Commits(cv, db, e, f) {
      assert (db.outbox + [e])[..|db.outbox|] == db.outbox;
    }
  }

  lemma {:induction false} RunExactlyOnce(cv: Conversion, initial: Table, db: Db, ds: seq<Delivery>)
    requires ExactlyOnce(cv, initial, db)
    ensures ExactlyOnce(cv, initial, Run(cv, db, ds))
    decreases |ds|
  {
    if ds != [] {
      HandledKeepsExactlyOnce(cv, initial, db, ds[0].trade, ds[0].faults);
      RunExactlyOnce(cv, initial, Handled(cv, db, ds[0].trade, ds[0].faults), ds[1..]);
    }
  }

  /** Redelivering a settled trade, in any state later than its commit, changes nothing. */
  lemma {:induction false} RedeliveryIsNoOp(cv: Conversion, db: Db, ds: seq<Delivery>, e: Trade, f: Faults)
    requires Marked(db.outbox, e.tradeId)
    ensures Handled(cv, Run(cv, db, ds), e, f) == Run(cv, db, ds)
    decreases |ds|
  {
    if ds != [] {
      var next := Handled(cv, db, ds[0].trade, ds[0].faults);
      assert Marked(next.outbox, e.tradeId) by {
        var i :| 0 <= i < |db.outbox| && db.outbox[i].tradeId == e.tradeId;
        assert next.outbox[i] == db.outbox[i];
      }
      RedeliveryIsNoOp(cv, next, ds[1..], e, f);
    }
  }

  /** What the caller is told: success exactly when the trade is in the outbox afterwards, unless a fault hit the
      check of a trade that was there already; a failure has changed nothing, and neither has any fault. */
  lemma ReportedExactly(cv: Conversion, db: Db, e: Trade, f: Faults)
    ensures var after := Handled(cv, db, e, f);
            && (Reported(cv, db, e, f) <==>
                  Marked(after.outbox, e.tradeId) && !(Marked(db.outbox, e.tradeId) && (f.insert || f.commit)))
            && (!Reported(cv, db, e, f) ==> after == db)
            && (f.insert || f.first || f.second || f.commit ==> after == db)
            && (after != db ==> after.outbox == db.outbox + [e])
  {
    hide Settled;
    var after := Handled(cv, db, e, f);
    if Commits(cv, db, e, f) {
      assert after.outbox[|db.outbox|] == e;
    }
  }
}
