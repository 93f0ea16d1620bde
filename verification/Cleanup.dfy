/** Settlement, publishing and cleaning on one outbox table: the row of a settled trade is what keeps it from
    settling again, and cleaning removes it (biz/service/event_processor_position.go,
    biz/service/outbox_dispatcher.go, biz/dal/pg/outbox_repo.go). */
module Cleanup {
  import opened Options
  import opened Int64s
  import opened Matching
  import opened Positions
  import opened Settlement
  import opened Volumes
  import opened Outboxes
  import OutboxRuns

  /** The two tables, and every trade whose transaction committed, oldest first. */
  datatype Store = Store(rows: seq<Entry>, positions: Table, settled: seq<Trade>)

  datatype Action = Deliver(trade: Trade, faults: Faults) | Tick(weather: Weather) | Clean(cutoff: int)

  /** The transaction of a delivered trade commits. */
  predicate Settles(cv: Conversion, s: Store, e: Trade, f: Faults) {
    !Faulty(f) && !HasId(s.rows, e.tradeId) && Settled(cv, s.positions, e).Some?
  }

  function Step(cv: Conversion, batch: int, s: Store, a: Action): Store {
    match a
    case Deliver(e, f) =>
      if Settles(cv, s, e, f)
      then Store(Written(s.rows, e.tradeId, "TradeExecuted", true), Settled(cv, s.positions, e).value, s.settled + [e])
      else s
    case Tick(w) => if w.fetched then s.(rows := TickedRows(s.rows, w, batch)) else s
    case Clean(cutoff) => s.(rows := Cleaned(s.rows, cutoff))
  }

  function Run(cv: Conversion, batch: int, s: Store, actions: seq<Action>): Store
    decreases |actions|
  {
    if actions == [] then s else Run(cv, batch, Step(cv, batch, s, actions[0]), actions[1..])
  }

  // ---- the same deliveries without cleaning ----

  /** The rows hold exactly the ids of the settled trades. */
  ghost predicate RowsComplete(s: Store) {
    forall id: string :: HasId(s.rows, id) <==> Marked(s.settled, id)
  }

  /** While the rows are complete, a delivery is the transaction of `PositionProcessor`. */
  lemma DeliverIsHandled(cv: Conversion, batch: int, s: Store, e: Trade, f: Faults)
    requires RowsComplete(s)
    ensures var t := Step(cv, batch, s, Deliver(e, f));
            Db(t.settled, t.positions) == Handled(cv, Db(s.settled, s.positions), e, f)
  {
    hide HasId, Marked, Settled;
    assert HasId(s.rows, e.tradeId) <==> Marked(s.settled, e.tradeId);
  }

  // ---- what is settled ----

  lemma HasIdAfterWrite(rows: seq<Entry>, id: string, x: string)
    requires !HasId(rows, id)
    ensures HasId(Written(rows, id, "TradeExecuted", true), x) <==> HasId(rows, x) || x == id
  {
    var after := Written(rows, id, "TradeExecuted", true);
    assert after[|rows|].id == id;
    assert forall i :: 0 <= i < |rows| ==> after[i] == rows[i];
  }

  lemma HasIdAfterTick(rows: seq<Entry>, w: Weather, batch: int, x: string)
    ensures HasId(TickedRows(rows, w, batch), x) <==> HasId(rows, x)
  {
    hide Waiting;
    var after := TickedRows(rows, w, batch);
    assert forall i :: 0 <= i < |rows| ==> after[i].id == rows[i].id;
  }

  lemma MarkedAfter(settled: seq<Trade>, e: Trade, x: string)
    ensures Marked(settled + [e], x) <==> Marked(settled, x) || x == e.tradeId
  {
    assert (settled + [e])[|settled|] == e;
    assert forall i :: 0 <= i < |settled| ==> (settled + [e])[i] == settled[i];
  }

  /** No step but cleaning makes the rows incomplete. */
  lemma OnlyCleaningForgets(cv: Conversion, batch: int, s: Store, a: Action)
    requires RowsComplete(s) && !a.Clean?
    ensures RowsComplete(Step(cv, batch, s, a))
  {
    hide HasId, Marked, Settled, TickedRows, Written;
    var t := Step(cv, batch, s, a);
    forall x: string ensures HasId(t.rows, x) <==> Marked(t.settled, x) {
      assert HasId(s.rows, x) <==> Marked(s.settled, x);
      match a
      case Deliver(e, f) =>
        if Settles(cv, s, e, f) {
          HasIdAfterWrite(s.rows, e.tradeId, x);
          MarkedAfter(s.settled, e, x);
        }
      case Tick(w) => HasIdAfterTick(s.rows, w, batch, x);
    }
  }

  /** Positions are the settlement of the committed trades in order, each as often as it was committed. */
  lemma {:induction false} PositionsAreFold(cv: Conversion, batch: int, initial: Table, s: Store, actions: seq<Action>)
    requires Fold(cv, initial, s.settled) == Some(s.positions)
    ensures var t := Run(cv, batch, s, actions);
            s.settled <= t.settled && Fold(cv, initial, t.settled) == Some(t.positions)
    decreases |actions|
  {
    hide Settled, TickedRows, Written, HasId;
    if actions != [] {
      var t := Step(cv, batch, s, actions[0]);
      if t.settled != s.settled {
        assert t.settled[..|s.settled|] == s.settled;
      }
      PositionsAreFold(cv, batch, initial, t, actions[1..]);
    }
  }

  // ---- when a trade settles twice ----

  /** A delivery finds its trade settled before, its row gone and its parties able to settle. */
  predicate Reopens(cv: Conversion, s: Store, a: Action) {
    && a.Deliver? && !Faulty(a.faults)
    && Marked(s.settled, a.trade.tradeId) && !HasId(s.rows, a.trade.tradeId)
    && CanSettle(s.positions, a.trade, cv.qty(a.trade.quantity))
  }

  ghost predicate NeverReopens(cv: Conversion, batch: int, s: Store, actions: seq<Action>)
    decreases |actions|
  {
    actions != [] ==> !Reopens(cv, s, actions[0]) && NeverReopens(cv, batch, Step(cv, batch, s, actions[0]), actions[1..])
  }

  ghost predicate Sane(s: Store) {
    NonNegative(s.positions) && Fits(s.positions)
  }

  ghost predicate PositiveQuantities(cv: Conversion, actions: seq<Action>) {
    forall i :: 0 <= i < |actions| && actions[i].Deliver? ==> cv.qty(actions[i].trade.quantity) > 0
  }

  lemma StepKeepsSane(cv: Conversion, batch: int, s: Store, a: Action)
    requires Sane(s) && (a.Deliver? ==> cv.qty(a.trade.quantity) > 0)
    ensures Sane(Step(cv, batch, s, a))
  {
    hide Total, Settled, TickedRows, Cleaned, Written, HasId, NonNegative;
    if a.Deliver? && Settles(cv, s, a.trade, a.faults) {
      SettledConserves(cv, s.positions, a.trade);
    }
  }

  /** One delivery: no id is repeated among the settled trades if and only if it does not reopen one. */
  lemma StepSettlesOnceIff(cv: Conversion, batch: int, s: Store, a: Action)
    requires Sane(s) && (a.Deliver? ==> cv.qty(a.trade.quantity) > 0)
    requires DistinctTrades(s.settled) && forall id: string :: HasId(s.rows, id) ==> Marked(s.settled, id)
    ensures DistinctTrades(Step(cv, batch, s, a).settled) <==> !Reopens(cv, s, a)
  {
    if a.Deliver? {
      var e := a.trade;
      SettlesIff(cv, s.positions, e);
      hide Settled, CanSettle, HasId, Sane, Written;
      if Settles(cv, s, e, a.faults) {
        var all := s.settled + [e];
        assert all[|s.settled|] == e;
        assert forall i :: 0 <= i < |s.settled| ==> all[i] == s.settled[i];
        if Marked(s.settled, e.tradeId) {
          var i :| 0 <= i < |s.settled| && s.settled[i].tradeId == e.tradeId;
          assert all[i].tradeId == all[|s.settled|].tradeId;
        }
      }
    }
  }

  /** Every row belongs to a settled trade. */
  ghost predicate RowsSettled(s: Store) {
    forall id: string :: HasId(s.rows, id) ==> Marked(s.settled, id)
  }

  lemma HasIdAfterClean(rows: seq<Entry>, cutoff: int, x: string)
    ensures HasId(Cleaned(rows, cutoff), x) ==> HasId(rows, x)
  {
    if HasId(Cleaned(rows, cutoff), x) {
      var kept := Cleaned(rows, cutoff);
      var j :| 0 <= j < |kept| && kept[j].id == x;
      OutboxRuns.CleanMembers(rows, cutoff, kept[j]);
      var i :| 0 <= i < |rows| && rows[i] == kept[j];
    }
  }

  lemma StepKeepsRowsSettled(cv: Conversion, batch: int, s: Store, a: Action)
    requires RowsSettled(s)
    ensures RowsSettled(Step(cv, batch, s, a))
  {
    hide HasId, Marked, Settled, TickedRows, Written, Cleaned;
    var t := Step(cv, batch, s, a);
    forall x: string | HasId(t.rows, x) ensures Marked(t.settled, x) {
      match a
      case Deliver(e, f) =>
        if Settles(cv, s, e, f) {
          HasIdAfterWrite(s.rows, e.tradeId, x);
          MarkedAfter(s.settled, e, x);
        }
      case Tick(w) => HasIdAfterTick(s.rows, w, batch, x);
      case Clean(cutoff) => HasIdAfterClean(s.rows, cutoff, x);
    }
  }

  lemma {:induction false} SettledGrows(cv: Conversion, batch: int, s: Store, actions: seq<Action>)
    ensures s.settled <= Run(cv, batch, s, actions).settled
    decreases |actions|
  {
    hide Settled, TickedRows, Written, HasId, Cleaned;
    if actions != [] {
      SettledGrows(cv, batch, Step(cv, batch, s, actions[0]), actions[1..]);
    }
  }

  /** Over every run with deliveries, ticks and cleaning, each trade id settles at most once if and only if no
      delivery found its trade settled, its row cleaned away and its parties able to settle again. */
  lemma {:induction false} SettlesOnceIff(cv: Conversion, batch: int, s: Store, actions: seq<Action>)
    requires Sane(s) && PositiveQuantities(cv, actions) && DistinctTrades(s.settled) && RowsSettled(s)
    ensures DistinctTrades(Run(cv, batch, s, actions).settled) <==> NeverReopens(cv, batch, s, actions)
    decreases |actions|
  {
    if actions != [] {
      var t := Step(cv, batch, s, actions[0]);
      StepSettlesOnceIff(cv, batch, s, actions[0]);
      StepKeepsSane(cv, batch, s, actions[0]);
      StepKeepsRowsSettled(cv, batch, s, actions[0]);
      hide Step, Sane, RowsSettled, Reopens;
      if DistinctTrades(t.settled) {
        SettlesOnceIff(cv, batch, t, actions[1..]);
      } else {
        SettledGrows(cv, batch, t, actions[1..]);
        RepeatStays(t.settled, Run(cv, batch, t, actions[1..]).settled);
      }
    }
  }

  lemma RepeatStays(a: seq<Trade>, b: seq<Trade>)
    requires a <= b && !DistinctTrades(a)
    ensures !DistinctTrades(b)
  {
    var i, j :| 0 <= i < j < |a| && a[i].tradeId == a[j].tradeId;
    assert b[i] == a[i] && b[j] == a[j];
  }

  // ---- a retention that is long enough ----

  /** Nothing is cleaned that was published during the run. */
  ghost predicate CleansOnlyBefore(actions: seq<Action>, start: int) {
    forall i :: 0 <= i < |actions| ==>
      (actions[i].Clean? ==> actions[i].cutoff <= start) && (actions[i].Tick? ==> actions[i].weather.now >= start)
  }

  ghost predicate NotPublishedBefore(rows: seq<Entry>, start: int) {
    forall i :: 0 <= i < |rows| && rows[i].published ==> rows[i].publishedAt >= start
  }

  lemma {:induction false} NothingToClean(rows: seq<Entry>, cutoff: int)
    requires NotPublishedBefore(rows, cutoff)
    ensures Cleaned(rows, cutoff) == rows
  {
    if rows != [] {
      NothingToClean(rows[..|rows| - 1], cutoff);
    }
  }

  /** While every cutoff lies before the run and every row was published in it, cleaning deletes nothing and
      the whole run is exactly once. */
  lemma {:induction false} LongRetentionIsExactlyOnce(cv: Conversion, batch: int, initial: Table, s: Store, actions: seq<Action>, start: int)
    requires RowsComplete(s) && ExactlyOnce(cv, initial, Db(s.settled, s.positions))
    requires CleansOnlyBefore(actions, start) && NotPublishedBefore(s.rows, start)
    ensures var t := Run(cv, batch, s, actions);
            RowsComplete(t) && ExactlyOnce(cv, initial, Db(t.settled, t.positions))
    decreases |actions|
  {
    if actions != [] {
      var a, t := actions[0], Step(cv, batch, s, actions[0]);
      if a.Clean? {
        NothingToClean(s.rows, a.cutoff);
      } else {
        OnlyCleaningForgets(cv, batch, s, a);
        if a.Deliver? {
          DeliverIsHandled(cv, batch, s, a.trade, a.faults);
          HandledKeepsExactlyOnce(cv, initial, Db(s.settled, s.positions), a.trade, a.faults);
        }
      }
      StepKeepsRecent(cv, batch, s, a, start);
      hide Step, RowsComplete, ExactlyOnce, NotPublishedBefore;
      LongRetentionIsExactlyOnce(cv, batch, initial, t, actions[1..], start);
    }
  }

  lemma StepKeepsRecent(cv: Conversion, batch: int, s: Store, a: Action, start: int)
    requires NotPublishedBefore(s.rows, start) && (a.Clean? ==> a.cutoff <= start) && (a.Tick? ==> a.weather.now >= start)
    ensures NotPublishedBefore(Step(cv, batch, s, a).rows, start)
  {
    hide Settled, Waiting, HasId;
    if a.Clean? {
      assert NotPublishedBefore(s.rows, a.cutoff);
      NothingToClean(s.rows, a.cutoff);
    }
  }

  // ---- settled, published, cleaned, delivered again ----

  /** The trade's row after it was settled, published in a fine tick and cleaned: gone. */
  lemma SettledThenCleaned(cv: Conversion, batch: int, s: Store, e: Trade, w: Weather, cutoff: int)
    requires s.rows == [] && Settles(cv, s, e, NO_FAULTS) && OutboxRuns.Fine(w) && batch > 0 && w.now < cutoff
    ensures var t := Step(cv, batch, Step(cv, batch, Step(cv, batch, s, Deliver(e, NO_FAULTS)), Tick(w)), Clean(cutoff));
            t == Store([], Settled(cv, s.positions, e).value, s.settled + [e])
  {
    hide Settled;
    var a := Step(cv, batch, s, Deliver(e, NO_FAULTS));
    var row := Entry(e.tradeId, "TradeExecuted", true, false, 0, 0, "");
    assert a.rows == [row];
    var b := Step(cv, batch, a, Tick(w));
    assert Waiting([]) == 0 && a.rows[..0] == [];
    assert InBatch(a.rows, 0, batch);
    assert b.rows == [row.(published := true, publishedAt := w.now)];
    assert Cleaned(b.rows, cutoff) == Cleaned(b.rows[..0], cutoff) + [] && b.rows[..0] == [];
  }

  /** With a seller holding twice the quantity, the redelivery settles again: the trade id is settled twice and
      twice the quantity has moved. */
  lemma CleanedTradeSettlesTwice(cv: Conversion, batch: int, s: Store, e: Trade, w: Weather, cutoff: int)
    requires Sane(s) && s.rows == [] && OutboxRuns.Fine(w) && batch > 0 && w.now < cutoff
    requires cv.qty(e.quantity) > 0 && Buyer(e) != Seller(e) && 2 * cv.qty(e.quantity) <= VolumeOf(s.positions, Seller(e))
    ensures var t := Run(cv, batch, s, [Deliver(e, NO_FAULTS), Tick(w), Clean(cutoff), Deliver(e, NO_FAULTS)]);
            && t.settled == s.settled + [e, e]
            && VolumeOf(t.positions, Seller(e)) == VolumeOf(s.positions, Seller(e)) - 2 * cv.qty(e.quantity)
            && VolumeOf(t.positions, Buyer(e)) == VolumeOf(s.positions, Buyer(e)) + 2 * cv.qty(e.quantity)
  {
    hide Settled, Total, TickedRows;
    SettlesIff(cv, s.positions, e);
    SettledMoves(cv, s.positions, e);
    SettledConserves(cv, s.positions, e);
    var once := Settled(cv, s.positions, e).value;
    SettlesIff(cv, once, e);
    SettledMoves(cv, once, e);
    SettledThenCleaned(cv, batch, s, e, w, cutoff);
    hide Sane, CanSettle, Cleaned;
    RunFour(cv, batch, s, Deliver(e, NO_FAULTS), Tick(w), Clean(cutoff), Deliver(e, NO_FAULTS));
    assert s.settled + [e] + [e] == s.settled + [e, e];
  }

  lemma RunFour(cv: Conversion, batch: int, s: Store, a: Action, b: Action, c: Action, d: Action)
    ensures Run(cv, batch, s, [a, b, c, d]) ==
            Step(cv, batch, Step(cv, batch, Step(cv, batch, Step(cv, batch, s, a), b), c), d)
  {
    hide Step;
    var s1 := Step(cv, batch, s, a);
    var s2 := Step(cv, batch, s1, b);
    var s3 := Step(cv, batch, s2, c);
    var s4 := Step(cv, batch, s3, d);
    assert Run(cv, batch, s4, []) == s4 && Run(cv, batch, s3, [d]) == s4 && Run(cv, batch, s2, [c, d]) == s4;
    assert Run(cv, batch, s1, [b, c, d]) == s4;
  }

  /** For instance: user m sells 2 of 10 to user v, and after the cleanup m holds 6. */
  lemma TwiceForInstance(cv: Conversion, s: Store, w: Weather)
    requires s == Store([], map[Key("m", "BTC") := Position(10, 5)], []) && OutboxRuns.Fine(w)
    requires cv.qty(2) == 2
    ensures var e := Trade(1, "BTC-t-0", "BTC", "t", "r", "v", "m", 5, 2, "buy");
            var t := Run(cv, 1, s, [Deliver(e, NO_FAULTS), Tick(w), Clean(w.now + 1), Deliver(e, NO_FAULTS)]);
            t.settled == [e, e] && VolumeOf(t.positions, Key("m", "BTC")) == 6 && VolumeOf(t.positions, Key("v", "BTC")) == 4
  {
    var e := Trade(1, "BTC-t-0", "BTC", "t", "r", "v", "m", 5, 2, "buy");
    var k := Key("m", "BTC");
    forall x: string ensures Total(s.positions, x) <= INT64_MAX {
      TotalPick(s.positions, x, k);
      assert s.positions - {k} == map[];
    }
    hide Total, Run;
    CleanedTradeSettlesTwice(cv, 1, s, e, w, w.now + 1);
    assert [] + [e, e] == [e, e];
  }
}
