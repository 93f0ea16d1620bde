/** The events of a whole run of one book: what the outbox and the event log receive
    (biz/service/orderbook.go, biz/service/event_processor_position.go). */
module BookEvents {
  import opened Options
  import opened Int64s
  import opened Sequencing
  import opened Matching
  import opened BookRuns
  import EventLogs
  import Positions
  import Settlement
  import Recovery

  /** One call on the book: how many numbers other users of the sequencer drew since the call before, and the
      events it returned. */
  datatype Turn = Turn(op: Op, gap: nat, events: seq<Trade>)

  function OpsOf(turns: seq<Turn>): seq<Op> {
    seq(|turns|, i requires 0 <= i < |turns| => turns[i].op)
  }

  function AllEvents(turns: seq<Turn>): seq<Trade>
    decreases |turns|
  {
    if turns == [] then [] else turns[0].events + AllEvents(turns[1..])
  }

  /** The sequencer's counter after the calls. */
  function CounterAfter(local: nat, turns: seq<Turn>): nat
    decreases |turns|
  {
    if turns == [] then local else CounterAfter(local + turns[0].gap + |turns[0].events|, turns[1..])
  }

  /** The events of each call are those `MatchOrder` promises; a cancel returns none. */
  ghost predicate Emits(symbol: string, node: nat, local: nat, s: Ledger, turns: seq<Turn>)
    decreases |turns|
  {
    turns != [] ==>
      var u := turns[0];
      && BookOpen(s.book)
      && (u.op.Submit? ==> TradesAre(u.events, symbol, u.op.order, FillsOf(s.book, u.op.order), node, local + u.gap))
      && (u.op.Cancel? ==> u.events == [])
      && Emits(symbol, node, local + u.gap + |u.events|, Apply(s, u.op), turns[1..])
  }

  // ---- trade ids ----

  /** The events' ids are those of the trade keys the ledger lists. */
  ghost predicate Named(symbol: string, events: seq<Trade>, keys: seq<TradeKey>) {
    |events| == |keys| && forall i :: 0 <= i < |events| ==> events[i].tradeId == TradeId(symbol, keys[i].taker, keys[i].index)
  }

  lemma NamedConcat(symbol: string, a: seq<Trade>, k: seq<TradeKey>, b: seq<Trade>, l: seq<TradeKey>)
    requires Named(symbol, a, k) && Named(symbol, b, l)
    ensures Named(symbol, a + b, k + l)
  {
    hide TradeId;
  }

  lemma TurnNamed(symbol: string, node: nat, local: nat, s: Ledger, u: Turn)
    requires BookOpen(s.book)
    requires u.op.Submit? ==> TradesAre(u.events, symbol, u.op.order, FillsOf(s.book, u.op.order), node, local)
    requires u.op.Cancel? ==> u.events == []
    ensures s.trades <= Apply(s, u.op).trades && Named(symbol, u.events, Apply(s, u.op).trades[|s.trades|..])
  {
    hide TradeId, Pack, FillsOf, Submitted, Cancelled;
  }

  lemma {:induction false} RunNamed(symbol: string, node: nat, local: nat, s: Ledger, turns: seq<Turn>, t: Ledger)
    requires Emits(symbol, node, local, s, turns) && BookRuns.Run(s, OpsOf(turns)) == Some(t)
    ensures s.trades <= t.trades && Named(symbol, AllEvents(turns), t.trades[|s.trades|..])
    decreases |turns|
  {
    hide Apply, Named, TradesAre, Fresh, BookOpen;
    if turns == [] {
      NothingNamed(symbol, t.trades);
    } else {
      var u := turns[0];
      var r := Apply(s, u.op);
      assert OpsOf(turns)[1..] == OpsOf(turns[1..]);
      TurnNamed(symbol, node, local + u.gap, s, u);
      RunNamed(symbol, node, local + u.gap + |u.events|, r, turns[1..], t);
      NamedConcat(symbol, u.events, r.trades[|s.trades|..], AllEvents(turns[1..]), t.trades[|r.trades|..]);
      assert r.trades[|s.trades|..] + t.trades[|r.trades|..] == t.trades[|s.trades|..];
    }
  }

  lemma NothingNamed(symbol: string, keys: seq<TradeKey>)
    ensures Named(symbol, [], keys[|keys|..])
  {
  }

  /** The outbox never takes two trades of one book for the same: over every run with fresh order ids all
      events have different event ids. */
  lemma MarkersNeverMerge(symbol: string, node: nat, local: nat, s: Ledger, turns: seq<Turn>, t: Ledger)
    requires Unused(s) && Emits(symbol, node, local, s, turns) && BookRuns.Run(s, OpsOf(turns)) == Some(t)
    ensures Settlement.DistinctTrades(AllEvents(turns))
  {
    RunNamed(symbol, node, local, s, turns, t);
    hide BookRuns.Run, Emits, TradeId;
    var events := AllEvents(turns);
    assert t.trades[0..] == t.trades;
    forall i, j | 0 <= i < j < |events| ensures events[i].tradeId != events[j].tradeId {
      TradeIdsDistinct(symbol, s, OpsOf(turns), t, i, j);
    }
  }

  // ---- sequence numbers ----

  ghost predicate Above(events: seq<Trade>, bound: nat) {
    forall i :: 0 <= i < |events| ==> events[i].number > bound
  }

  ghost predicate UpTo(events: seq<Trade>, bound: nat) {
    forall i :: 0 <= i < |events| ==> events[i].number <= bound
  }

  ghost predicate Rising(events: seq<Trade>) {
    forall i, j :: 0 <= i < j < |events| ==> events[i].number < events[j].number
  }

  ghost predicate OfSymbol(events: seq<Trade>, symbol: string) {
    forall i :: 0 <= i < |events| ==> events[i].symbol == symbol
  }

  lemma CountersOrdered(node: nat, a: nat, b: nat)
    requires node <= MAX_NODE && a <= b < LOCAL_RANGE
    ensures Pack(node, a) <= Pack(node, b) && (a < b ==> Pack(node, a) < Pack(node, b))
  {
    hide Pack;
    PackInjective(node, a, node, b);
  }

  /** The events of one call are numbered upwards within the counters drawn for it. */
  lemma TurnNumbers(symbol: string, o: Order, fills: seq<Fill>, events: seq<Trade>, node: nat, local: nat)
    requires TradesAre(events, symbol, o, fills, node, local) && node <= MAX_NODE && local + |events| < LOCAL_RANGE
    ensures Above(events, Pack(node, local)) && UpTo(events, Pack(node, local + |events|)) && Rising(events) && OfSymbol(events, symbol)
  {
    hide Pack, TradeId;
    forall i | 0 <= i < |events|
      ensures events[i].number == Pack(node, local + i + 1)
      ensures Pack(node, local) < events[i].number <= Pack(node, local + |events|)
    {
      CountersOrdered(node, local, local + i + 1);
      CountersOrdered(node, local + i + 1, local + |events|);
    }
    forall i, j | 0 <= i < j < |events| ensures events[i].number < events[j].number {
      CountersOrdered(node, local + i + 1, local + j + 1);
    }
  }

  lemma RisingConcat(a: seq<Trade>, b: seq<Trade>, low: nat, mid: nat)
    requires Rising(a) && Rising(b) && Above(a, low) && UpTo(a, mid) && Above(b, mid) && low <= mid
    ensures Rising(a + b) && Above(a + b, low)
  {
  }

  lemma {:induction false} CounterGrows(local: nat, turns: seq<Turn>)
    ensures CounterAfter(local, turns) >= local
    decreases |turns|
  {
    if turns != [] {
      CounterGrows(local + turns[0].gap + |turns[0].events|, turns[1..]);
    }
  }

  lemma {:induction false} RunNumbers(symbol: string, node: nat, local: nat, s: Ledger, turns: seq<Turn>)
    requires Emits(symbol, node, local, s, turns) && node <= MAX_NODE && CounterAfter(local, turns) < LOCAL_RANGE
    ensures var events := AllEvents(turns); Rising(events) && Above(events, Pack(node, local)) && OfSymbol(events, symbol)
    decreases |turns|
  {
    hide Pack, TradesAre, Apply, Above, UpTo, Rising, BookOpen, FillsOf;
    if turns == [] {
      NothingNumbered(symbol, Pack(node, local));
    } else {
      var u := turns[0];
      var start := local + u.gap;
      var next := start + |u.events|;
      CounterGrows(next, turns[1..]);
      CountersOrdered(node, local, start);
      CountersOrdered(node, start, next);
      if u.op.Submit? {
        TurnNumbers(symbol, u.op.order, FillsOf(s.book, u.op.order), u.events, node, start);
      } else {
        NothingNumbered(symbol, Pack(node, start));
        NothingNumbered(symbol, Pack(node, next));
      }
      RunNumbers(symbol, node, next, Apply(s, u.op), turns[1..]);
      RisingConcat(u.events, AllEvents(turns[1..]), Pack(node, start), Pack(node, next));
      AboveLower(AllEvents(turns), Pack(node, start), Pack(node, local));
    }
  }

  lemma NothingNumbered(symbol: string, bound: nat)
    ensures Rising([]) && Above([], bound) && UpTo([], bound) && OfSymbol([], symbol)
  {
  }

  lemma AboveLower(events: seq<Trade>, a: nat, b: nat)
    requires Above(events, a) && b <= a
    ensures Above(events, b)
  {
  }

  // ---- the log of one book ----

  function LogOf(events: seq<Trade>): seq<EventLogs.Event> {
    seq(|events|, i requires 0 <= i < |events| => EventLogs.TradeExecuted(events[i]))
  }

  /** While the sequencer's counter stays below 2^40, the log of a book is one that recovery can rely on:
      numbered from 1, increasing, and without repeated trade ids. */
  lemma BookLogIsGood(symbol: string, node: nat, s: Ledger, turns: seq<Turn>, t: Ledger)
    requires Unused(s) && Emits(symbol, node, 0, s, turns) && BookRuns.Run(s, OpsOf(turns)) == Some(t)
    requires node <= MAX_NODE && CounterAfter(0, turns) < LOCAL_RANGE
    ensures Recovery.GoodLog(LogOf(AllEvents(turns)))
  {
    MarkersNeverMerge(symbol, node, 0, s, turns, t);
    RunNumbers(symbol, node, 0, s, turns);
    hide Pack, Emits, BookRuns.Run, AllEvents;
    var log := LogOf(AllEvents(turns));
    assert forall i :: 0 <= i < |log| ==> EventLogs.Number(log[i]) == AllEvents(turns)[i].number;
  }

  lemma {:induction false} TradesOfLog(events: seq<Trade>)
    ensures Recovery.Trades(LogOf(events)) == events
  {
    if events != [] {
      var n := |events| - 1;
      assert LogOf(events)[..n] == LogOf(events[..n]);
      TradesOfLog(events[..n]);
    }
  }

  /** From matching to positions: whatever a book's run emits, a crash at any point of settling it and a replay
      of its log reach the positions of settling its events once, in order. */
  lemma BookRunRecovers(cv: Settlement.Conversion, initial: Positions.Table, symbol: string, node: nat, s: Ledger,
                        turns: seq<Turn>, t: Ledger, y: Recovery.System, ops: seq<Recovery.Op>)
    requires Unused(s) && Emits(symbol, node, 0, s, turns) && BookRuns.Run(s, OpsOf(turns)) == Some(t)
    requires node <= MAX_NODE && CounterAfter(0, turns) < LOCAL_RANGE
    requires Settlement.Fold(cv, initial, AllEvents(turns)).Some?
    requires Recovery.Initial(LogOf(AllEvents(turns)), initial, y)
    ensures var log := LogOf(AllEvents(turns));
            Recovery.Recovered(cv, log, Recovery.Operated(cv, log, y, ops)).db.positions ==
            Settlement.Fold(cv, initial, AllEvents(turns)).value
  {
    BookLogIsGood(symbol, node, s, turns, t);
    TradesOfLog(AllEvents(turns));
    Recovery.CrashAndReplayRecovers(cv, LogOf(AllEvents(turns)), initial, y, ops);
  }
}
