/** Crash recovery of positions: a run with any number of crashes, each followed by a replay of the log from
    the stored checkpoint, settles what one crash-free pass over the log settles
    (biz/service/event_pipeline.go, biz/service/event_processor_position.go). */
module Recovery {
  import opened Options
  import opened Matching
  import opened EventLogs
  import opened Positions
  import opened Settlement
  import opened PipelineRuns
  import Checkpoints
  import Pipelines

  // ---- positions symbol by symbol ----

  function Restrict(t: Table, s: string): Table {
    map k <- t | k.symbol == s :: t[k]
  }

  function RestrictAll(t: Option<Table>, s: string): Option<Table> {
    if t.None? then None else Some(Restrict(t.value, s))
  }

  lemma BoughtRestricts(t: Table, k: Positions.Key, qty: int, price: int)
    requires Int64s.IsInt64(qty) && Int64s.IsInt64(price)
    ensures Bought(Restrict(t, k.symbol), k, qty, price) == RestrictAll(Bought(t, k, qty, price), k.symbol)
  {
    hide BuyMore;
    var b := Bought(t, k, qty, price);
    if b.Some? {
      assert Bought(Restrict(t, k.symbol), k, qty, price).value == Restrict(b.value, k.symbol);
    }
  }

  lemma SoldRestricts(t: Table, k: Positions.Key, qty: int)
    requires Int64s.IsInt64(qty)
    ensures Sold(Restrict(t, k.symbol), k, qty) == RestrictAll(Sold(t, k, qty), k.symbol)
  {
    var b := Sold(t, k, qty);
    if b.Some? {
      assert Sold(Restrict(t, k.symbol), k, qty).value == Restrict(b.value, k.symbol);
    }
  }

  /** Settling a trade depends on and changes only the rows of its symbol. */
  lemma SettledRestricts(cv: Conversion, t: Table, e: Trade)
    ensures Settled(cv, Restrict(t, e.symbol), e) == RestrictAll(Settled(cv, t, e), e.symbol)
  {
    hide Bought, Sold, Restrict;
    var q, p := cv.qty(e.quantity), cv.price(e.price);
    var taker, maker := Positions.Key(e.takerUser, e.symbol), Positions.Key(e.makerUser, e.symbol);
    BoughtRestricts(t, taker, q, p);
    SoldRestricts(t, taker, q);
    if Bought(t, taker, q, p).Some? {
      SoldRestricts(Bought(t, taker, q, p).value, maker, q);
    }
    if Sold(t, taker, q).Some? {
      BoughtRestricts(Sold(t, taker, q).value, maker, q, p);
    }
  }

  lemma OtherSymbolsKept(cv: Conversion, t: Table, e: Trade, s: string)
    requires Settled(cv, t, e).Some? && s != e.symbol
    ensures Restrict(Settled(cv, t, e).value, s) == Restrict(t, s)
  {
  }

  // ---- the log as each symbol sees it ----

  function Trades(es: seq<Event>): seq<Trade> {
    if es == [] then []
    else Trades(es[..|es| - 1]) + if es[|es| - 1].TradeExecuted? then [es[|es| - 1].trade] else []
  }

  lemma TradesOne(es: seq<Event>, e: Event)
    ensures Trades(es + [e]) == Trades(es) + if e.TradeExecuted? then [e.trade] else []
  {
    assert (es + [e])[..|es|] == es;
  }

  /** The whole history of a symbol: sequence numbers start at 1. */
  function Of(log: seq<Event>, s: string): seq<Event> {
    Filter(log, s, 1)
  }

  lemma OfOne(log: seq<Event>, e: Event, s: string)
    ensures Of(log + [e], s) == Of(log, s) + if SymbolOf(e) == s && Number(e) >= 1 then [e] else []
  {
    assert (log + [e])[..|log|] == log;
  }

  lemma FoldOne(cv: Conversion, t: Table, trades: seq<Trade>, e: Trade)
    ensures Fold(cv, t, trades + [e]) == if Fold(cv, t, trades).None? then None else Settled(cv, Fold(cv, t, trades).value, e)
  {
    assert (trades + [e])[..|trades|] == trades;
  }

  /** One more event, folded. */
  lemma FoldEvent(cv: Conversion, t: Table, es: seq<Event>, e: Event)
    ensures var before := Fold(cv, t, Trades(es));
            Fold(cv, t, Trades(es + [e])) == if e.TradeExecuted? && before.Some? then Settled(cv, before.value, e.trade) else before
  {
    hide Fold, Settled, Trades;
    TradesOne(es, e);
    if e.TradeExecuted? {
      FoldOne(cv, t, Trades(es), e.trade);
    } else {
      assert Trades(es) + [] == Trades(es);
    }
  }

  /** Folding the log is folding each symbol's trades on that symbol's rows. */
  lemma {:induction false} FoldRestricts(cv: Conversion, t: Table, log: seq<Event>, s: string)
    requires Numbered(log) && Fold(cv, t, Trades(log)).Some?
    ensures Fold(cv, Restrict(t, s), Trades(Of(log, s))) == Some(Restrict(Fold(cv, t, Trades(log)).value, s))
    decreases |log|
  {
    if log != [] {
      hide Restrict, Settled, Fold, Trades, Of;
      var init, e := log[..|log| - 1], log[|log| - 1];
      assert log == init + [e];
      FoldEvent(cv, t, init, e);
      FoldRestricts(cv, t, init, s);
      OfOne(init, e, s);
      if SymbolOf(e) == s {
        FoldEvent(cv, Restrict(t, s), Of(init, s), e);
        if e.TradeExecuted? {
          SettledRestricts(cv, Fold(cv, t, Trades(init)).value, e.trade);
        }
      } else {
        assert Of(init, s) + [] == Of(init, s);
        if e.TradeExecuted? {
          OtherSymbolsKept(cv, Fold(cv, t, Trades(init)).value, e.trade, s);
        }
      }
    }
  }

  ghost predicate Numbered(log: seq<Event>) {
    forall i :: 0 <= i < |log| ==> Number(log[i]) >= 1
  }

  ghost predicate IncreasingPerSymbol(log: seq<Event>) {
    forall i, j :: 0 <= i < j < |log| && SymbolOf(log[i]) == SymbolOf(log[j]) ==> Number(log[i]) < Number(log[j])
  }

  ghost predicate DistinctIds(log: seq<Event>) {
    forall i, j :: 0 <= i < j < |log| && log[i].TradeExecuted? && log[j].TradeExecuted? ==>
                     log[i].trade.tradeId != log[j].trade.tradeId
  }

  ghost predicate GoodLog(log: seq<Event>) {
    Numbered(log) && IncreasingPerSymbol(log) && DistinctIds(log)
  }

  lemma {:induction false} OfMembers(log: seq<Event>, s: string, start: nat)
    ensures forall e <- Filter(log, s, start) :: e in log && SymbolOf(e) == s && Number(e) >= start
  {
    if log != [] {
      OfMembers(log[..|log| - 1], s, start);
    }
  }

  /** A symbol's events are numbered upwards. */
  lemma {:induction false} OfIncreasing(log: seq<Event>, s: string)
    requires IncreasingPerSymbol(log)
    ensures forall i, j :: 0 <= i < j < |Of(log, s)| ==> Number(Of(log, s)[i]) < Number(Of(log, s)[j])
    decreases |log|
  {
    if log != [] {
      var init, last := log[..|log| - 1], log[|log| - 1];
      OfIncreasing(init, s);
      OfMembers(init, s, 1);
      var before := Of(init, s);
      forall e | e in before && SymbolOf(last) == s ensures Number(e) < Number(last) {
        var i :| 0 <= i < |init| && init[i] == e;
        assert log[i] == e;
      }
      assert Of(log, s) == before || Of(log, s) == before + [last];
    }
  }

  /** A query from a higher number returns the end of the symbol's events. */
  lemma {:induction false} FilterSuffix(log: seq<Event>, s: string, start: nat, c: nat)
    requires c <= |Of(log, s)| && start >= 1
    requires forall i :: 0 <= i < c ==> Number(Of(log, s)[i]) < start
    requires forall i :: c <= i < |Of(log, s)| ==> Number(Of(log, s)[i]) >= start
    ensures Filter(log, s, start) == Of(log, s)[c..]
    decreases |log|
  {
    if log != [] {
      var init, e := log[..|log| - 1], log[|log| - 1];
      var all, old' := Of(log, s), Of(init, s);
      if SymbolOf(e) == s && Number(e) >= 1 {
        assert all == old' + [e] && all[|all| - 1] == e;
        if c == |all| {
          assert forall i :: 0 <= i < |old'| ==> old'[i] == all[i];
          FilterSuffix(init, s, start, |old'|);
        } else {
          assert forall i :: 0 <= i < |old'| ==> old'[i] == all[i];
          FilterSuffix(init, s, start, c);
          assert all[c..] == old'[c..] + [e];
        }
      } else {
        assert all == old';
        FilterSuffix(init, s, start, c);
      }
    }
  }

  lemma IdsDiffer(log: seq<Event>, a: Event, b: Event)
    requires DistinctIds(log) && a in log && b in log && a.TradeExecuted? && b.TradeExecuted? && a != b
    ensures a.trade.tradeId != b.trade.tradeId
  {
    var i :| 0 <= i < |log| && log[i] == a;
    var j :| 0 <= j < |log| && log[j] == b;
  }

  // ---- the system ----

  const POSITION_PROCESSOR := "PositionProcessor"

  function LaneKey(s: string): Checkpoints.Key {
    Checkpoints.Key(POSITION_PROCESSOR, s)
  }

  /** The pipeline, the checkpoints the current life of the process started from, and the database. */
  datatype System = System(world: World, base: map<Checkpoints.Key, nat>, db: Db)

  /** Per symbol, the next event is entered in log order, starting after the checkpoint read at the start;
      settling runs the position transaction. Other processors move as they like. A crash may come between
      any two steps, also during a replay. */
  datatype Op =
    | Deliver(symbol: string)
    | CheckOffset(symbol: string)
    | Settle(symbol: string)
    | Advance(symbol: string)
    | Done(symbol: string, recorded: bool)
    | OtherProcessor(key: Checkpoints.Key, move: Move)
    | OtherDone(key: Checkpoints.Key, recorded: bool)
    | Flush(flush: nat)
    | SaveOne(flush: nat, mark: Mark, ok: bool)
    | CrashAndRestart

  function Base(y: System, s: string): nat {
    if LaneKey(s) in y.base then y.base[LaneKey(s)] else 0
  }

  /** What this life of the process has to deliver for a symbol. */
  function Queue(log: seq<Event>, y: System, s: string): seq<Event> {
    Filter(log, s, Base(y, s) + 1)
  }

  function LaneAt(y: System, s: string): Lane {
    LaneOf(y.world, LaneKey(s))
  }

  function Via(y: System, a: Action): System {
    y.(world := PipelineRuns.Step(y.world, a))
  }

  function SettledEvent(cv: Conversion, db: Db, e: Event): Db {
    if e.TradeExecuted? then Handled(cv, db, e.trade, NO_FAULTS) else db
  }

  predicate Accepts(cv: Conversion, db: Db, e: Event) {
    e.TradeExecuted? ==> Reported(cv, db, e.trade, NO_FAULTS)
  }

  function Operate(cv: Conversion, log: seq<Event>, y: System, op: Op): System {
    match op
    case Deliver(s) =>
      var n := |LaneAt(y, s).arrivals|;
      if n < |Queue(log, y, s)| then Via(y, Dispatch(LaneKey(s), Enter(Queue(log, y, s)[n]))) else y
    case CheckOffset(s) => Via(y, Dispatch(LaneKey(s), Check))
    case Settle(s) =>
      var l := LaneAt(y, s);
      if !l.phase.Checked? then y
      else Via(y, Dispatch(LaneKey(s), Process(Accepts(cv, y.db, l.phase.event)))).(db := SettledEvent(cv, y.db, l.phase.event))
    case Advance(s) => Via(y, Dispatch(LaneKey(s), WriteOffset))
    case Done(s, recorded) => Via(y, Finish(LaneKey(s), recorded))
    case OtherProcessor(k, m) => if k.processor == POSITION_PROCESSOR then y else Via(y, Dispatch(k, m))
    case OtherDone(k, recorded) => if k.processor == POSITION_PROCESSOR then y else Via(y, Finish(k, recorded))
    case Flush(f) => Via(y, Snapshot(f))
    case SaveOne(f, m, ok) => Via(y, Save(f, m, ok))
    case CrashAndRestart => Via(y, Crash).(base := y.world.stored)
  }

  function Operated(cv: Conversion, log: seq<Event>, y: System, ops: seq<Op>): System
    decreases |ops|
  {
    if ops == [] then y else Operated(cv, log, Operate(cv, log, y, ops[0]), ops[1..])
  }

  /** Everything entered since the last start has been dealt with and nothing is left to deliver. */
  predicate CaughtUp(log: seq<Event>, y: System, s: string) {
    LaneAt(y, s).phase.Idle? && |LaneAt(y, s).arrivals| >= |Queue(log, y, s)|
  }

  // ---- the invariant ----

  /** Position in the symbol's events of the next event to enter, or of the one between entering and being
      decided. */
  ghost function Place(log: seq<Event>, s: string, l: Lane, base: nat): int {
    |Of(log, s)| - |Filter(log, s, base + 1)| + |l.arrivals|
  }

  /** Exactly the first n events of the symbol are in the database. */
  ghost predicate DbOk(cv: Conversion, log: seq<Event>, initial: Table, db: Db, s: string, n: nat)
  {
    var all := Of(log, s);
    && n <= |all|
    && Fold(cv, Restrict(initial, s), Trades(all[..n])) == Some(Restrict(db.positions, s))
    && (forall i :: 0 <= i < |all| && all[i].TradeExecuted? ==> (Marked(db.outbox, all[i].trade.tradeId) <==> i < n))
  }

  /** The lane works at or behind the n events that are in the database. */
  ghost predicate LaneFits(all: seq<Event>, l: Lane, p: int, n: nat) {
    && 0 <= p <= n <= |all|
    && (forall e <- l.history :: e in all[..n])
    && l.offset <= (if p == 0 then 0 else Number(all[p - 1]))
    && (l.phase.Entered? || l.phase.Checked? ==> p < |all| && l.phase.event == all[p])
    && (l.phase.Processed? ==> p > 0 && l.phase.event == all[p - 1])
  }

  /** The queue is the end of the symbol's events. */
  ghost predicate QueueOk(log: seq<Event>, s: string, base: nat) {
    var all, q := Of(log, s), Filter(log, s, base + 1);
    |q| <= |all| && q == all[|all| - |q|..]
  }

  ghost predicate LaneSound(log: seq<Event>, s: string, l: Lane, base: nat, n: nat) {
    QueueOk(log, s, base) && LaneFits(Of(log, s), l, Place(log, s, l, base), n)
  }

  ghost predicate SymbolOk(cv: Conversion, log: seq<Event>, initial: Table, y: System, s: string, n: nat) {
    DbOk(cv, log, initial, y.db, s, n) && LaneSound(log, s, LaneAt(y, s), Base(y, s), n)
  }

  ghost predicate Somewhere(cv: Conversion, log: seq<Event>, initial: Table, y: System, s: string) {
    exists n: nat :: SymbolOk(cv, log, initial, y, s, n)
  }

  ghost predicate SystemOk(cv: Conversion, log: seq<Event>, initial: Table, y: System) {
    && LanesOk(y.world)
    && MarksOk(y.world)
    && (forall s: string :: Somewhere(cv, log, initial, y, s))
  }

  /** The processor never fails on this log: every prefix of every symbol's trades settles. */
  ghost predicate Settles(cv: Conversion, log: seq<Event>, initial: Table) {
    forall s: string, n: nat :: n <= |Of(log, s)| ==> Fold(cv, Restrict(initial, s), Trades(Of(log, s)[..n])).Some?
  }

  lemma {:induction false} FoldPrefix(cv: Conversion, t: Table, es: seq<Event>, n: nat)
    requires n <= |es| && Fold(cv, t, Trades(es)).Some?
    ensures Fold(cv, t, Trades(es[..n])).Some?
    decreases |es|
  {
    hide Settled, Fold, Trades;
    if n == |es| {
      assert es[..n] == es;
    } else {
      var init, e := es[..|es| - 1], es[|es| - 1];
      assert es == init + [e] && init[..n] == es[..n];
      FoldEvent(cv, t, init, e);
      FoldPrefix(cv, t, init, n);
    }
  }

  lemma SettlesIfLogDoes(cv: Conversion, log: seq<Event>, initial: Table)
    requires Numbered(log) && Fold(cv, initial, Trades(log)).Some?
    ensures Settles(cv, log, initial)
  {
    hide Fold, Trades, Restrict, Filter;
    forall s: string, n: nat | n <= |Of(log, s)| ensures Fold(cv, Restrict(initial, s), Trades(Of(log, s)[..n])).Some? {
      FoldRestricts(cv, initial, log, s);
      FoldPrefix(cv, Restrict(initial, s), Of(log, s), n);
    }
  }

  // ---- settling ----

  /** The event at place p <= n: already in the database, or the next one to go in. */
  ghost function Next(p: nat, n: nat): nat {
    if p == n then n + 1 else n
  }

  lemma OfSymbol(log: seq<Event>, s: string, i: nat)
    requires i < |Of(log, s)|
    ensures SymbolOf(Of(log, s)[i]) == s && Of(log, s)[i] in log
  {
    OfMembers(log, s, 1);
  }

  /** The next event of a symbol commits. */
  lemma NextCommits(cv: Conversion, log: seq<Event>, initial: Table, db: Db, s: string, n: nat)
    requires DbOk(cv, log, initial, db, s, n) && n < |Of(log, s)| && Of(log, s)[n].TradeExecuted?
    requires Fold(cv, Restrict(initial, s), Trades(Of(log, s)[..n + 1])).Some?
    ensures var e := Of(log, s)[n].trade;
            && Commits(cv, db, e, NO_FAULTS)
            && Fold(cv, Restrict(initial, s), Trades(Of(log, s)[..n + 1])) == Some(Restrict(Settled(cv, db.positions, e).value, s))
  {
    hide Of, Restrict, Settled, Fold, Marked, Trades;
    var all := Of(log, s);
    var e := all[n].trade;
    OfSymbol(log, s, n);
    assert !Marked(db.outbox, e.tradeId);
    assert all[..n + 1] == all[..n] + [all[n]];
    FoldEvent(cv, Restrict(initial, s), all[..n], all[n]);
    SettledRestricts(cv, db.positions, e);
  }

  lemma MarkedGrows(outbox: seq<Trade>, e: Trade, id: string)
    ensures Marked(outbox + [e], id) <==> Marked(outbox, id) || id == e.tradeId
  {
    if Marked(outbox, id) {
      var i :| 0 <= i < |outbox| && outbox[i].tradeId == id;
      assert (outbox + [e])[i] == outbox[i];
    }
    assert (outbox + [e])[|outbox|] == e;
  }

  /** Marking the n-th trade of a symbol marks no other. */
  lemma MarkNext(log: seq<Event>, outbox: seq<Trade>, s: string, n: nat)
    requires GoodLog(log) && n < |Of(log, s)| && Of(log, s)[n].TradeExecuted?
    requires forall i :: 0 <= i < |Of(log, s)| && Of(log, s)[i].TradeExecuted? ==> (Marked(outbox, Of(log, s)[i].trade.tradeId) <==> i < n)
    ensures var all := Of(log, s);
            forall i :: 0 <= i < |all| && all[i].TradeExecuted? ==> (Marked(outbox + [all[n].trade], all[i].trade.tradeId) <==> i < n + 1)
  {
    OfMembers(log, s, 1);
    OfIncreasing(log, s);
    hide Filter, Marked;
    var all := Of(log, s);
    var e := all[n];
    forall i | 0 <= i < |all| && all[i].TradeExecuted?
      ensures Marked(outbox + [e.trade], all[i].trade.tradeId) <==> i < n + 1
    {
      MarkedGrows(outbox, e.trade, all[i].trade.tradeId);
      if i != n {
        assert Number(all[i]) != Number(e);
        IdsDiffer(log, all[i], e);
      }
    }
  }

  lemma SettleOwn(cv: Conversion, log: seq<Event>, initial: Table, db: Db, s: string, n: nat, p: nat)
    requires GoodLog(log) && Settles(cv, log, initial) && DbOk(cv, log, initial, db, s, n)
    requires p <= n && p < |Of(log, s)|
    ensures var e := Of(log, s)[p];
            Accepts(cv, db, e) && DbOk(cv, log, initial, SettledEvent(cv, db, e), s, Next(p, n))
  {
    hide Filter, Restrict, Settled, Fold, Marked, Trades, GoodLog;
    var all := Of(log, s);
    var e := all[p];
    if p < n {
      if e.TradeExecuted? {
        assert Marked(db.outbox, e.trade.tradeId);
      }
    } else if e.TradeExecuted? {
      assert Fold(cv, Restrict(initial, s), Trades(all[..n + 1])).Some?;
      NextCommits(cv, log, initial, db, s, n);
      MarkNext(log, db.outbox, s, n);
    } else {
      assert all[..n + 1] == all[..n] + [e];
      FoldEvent(cv, Restrict(initial, s), all[..n], e);
    }
  }

  /** Another symbol's trade leaves a symbol's part of the database alone. */
  lemma SettleOther(cv: Conversion, log: seq<Event>, initial: Table, db: Db, s: string, n: nat, e: Event)
    requires GoodLog(log) && DbOk(cv, log, initial, db, s, n) && e in log && SymbolOf(e) != s
    ensures DbOk(cv, log, initial, SettledEvent(cv, db, e), s, n)
  {
    if e.TradeExecuted? && Commits(cv, db, e.trade, NO_FAULTS) {
      OfMembers(log, s, 1);
      OtherSymbolsKept(cv, db.positions, e.trade, s);
      hide Filter, Restrict, Settled, Fold, Marked;
      var all := Of(log, s);
      forall i | 0 <= i < |all| && all[i].TradeExecuted?
        ensures Marked(db.outbox + [e.trade], all[i].trade.tradeId) <==> i < n
      {
        MarkedGrows(db.outbox, e.trade, all[i].trade.tradeId);
        IdsDiffer(log, all[i], e);
      }
    }
  }

  // ---- every step keeps the invariant ----

  ghost predicate Rising(all: seq<Event>) {
    && (forall i :: 0 <= i < |all| ==> Number(all[i]) >= 1)
    && (forall i, j :: 0 <= i < j < |all| ==> Number(all[i]) < Number(all[j]))
  }

  lemma OfRising(log: seq<Event>, s: string)
    requires GoodLog(log)
    ensures Rising(Of(log, s))
  {
    OfIncreasing(log, s);
    OfMembers(log, s, 1);
  }

  /** The duplicate check never skips an event: the offset is behind it. */
  lemma MoveFits(all: seq<Event>, l: Lane, m: Move, p: int, n: nat)
    requires LaneFits(all, l, p, n) && Rising(all)
    requires m.Check? || m.WriteOffset? || (m.Enter? && p < |all| && m.event == all[p])
    ensures LaneFits(all, Moved(l, m), p, n) && Moved(l, m).arrivals == l.arrivals
  {
  }

  lemma ProcessFits(all: seq<Event>, l: Lane, p: int, n: nat)
    requires LaneFits(all, l, p, n) && Rising(all) && l.phase.Checked?
    ensures LaneFits(all, Moved(l, Process(true)), p + 1, Next(p, n))
    ensures |Moved(l, Process(true)).arrivals| == |l.arrivals| + 1
  {
    var r := Moved(l, Process(true));
    forall e | e in r.history ensures e in all[..Next(p, n)] {
      if e in l.history {
        assert e in all[..n];
        var i :| 0 <= i < n && all[i] == e;
        assert all[..Next(p, n)][i] == e;
      } else {
        assert e == all[p] && all[..Next(p, n)][p] == e;
      }
    }
  }

  /** A dispatch step that decides no event. */
  lemma MoveKeepsLane(log: seq<Event>, s: string, l: Lane, base: nat, m: Move, n: nat)
    requires GoodLog(log) && LaneSound(log, s, l, base, n)
    requires m.Check? || m.WriteOffset?
             || (m.Enter? && |l.arrivals| < |Filter(log, s, base + 1)| && m.event == Filter(log, s, base + 1)[|l.arrivals|])
    ensures LaneSound(log, s, Moved(l, m), base, n)
  {
    OfRising(log, s);
    hide Filter, Moved, LaneFits, Rising, GoodLog;
    MoveFits(Of(log, s), l, m, Place(log, s, l, base), n);
  }

  lemma ProcessKeepsLane(log: seq<Event>, s: string, l: Lane, base: nat, n: nat)
    requires GoodLog(log) && LaneSound(log, s, l, base, n) && l.phase.Checked?
    ensures 0 <= Place(log, s, l, base) <= n && Place(log, s, l, base) < |Of(log, s)|
    ensures l.phase.event == Of(log, s)[Place(log, s, l, base)]
    ensures LaneSound(log, s, Moved(l, Process(true)), base, Next(Place(log, s, l, base), n))
  {
    OfRising(log, s);
    hide Filter, Moved, Rising, GoodLog;
    ProcessFits(Of(log, s), l, Place(log, s, l, base), n);
  }

  lemma FinishKeepsLane(log: seq<Event>, s: string, l: Lane, base: nat, n: nat)
    requires LaneSound(log, s, l, base, n) && l.phase.Written?
    ensures LaneSound(log, s, l.(phase := Idle), base, n)
  {
    hide Filter;
  }

  /** A restart begins at or behind what is in the database: the checkpoint is of an accepted event. */
  lemma RestartPlace(log: seq<Event>, s: string, l: Lane, n: nat, number: nat) returns (c: nat)
    requires GoodLog(log) && n <= |Of(log, s)| && forall e <- l.history :: e in Of(log, s)[..n]
    requires number == 0 || Accepted(l, number)
    ensures c <= n && Filter(log, s, number + 1) == Of(log, s)[c..]
  {
    hide Filter, GoodLog;
    var all := Of(log, s);
    if number == 0 {
      c := 0;
      assert all[0..] == all;
    } else {
      var e :| e in l.history && Number(e) == number;
      assert e in all[..n];
      var j :| 0 <= j < n && all[j] == e;
      c := j + 1;
      SuffixAfter(log, s, j);
    }
  }

  /** A query from just above an event's number returns what follows it. */
  lemma SuffixAfter(log: seq<Event>, s: string, j: nat)
    requires GoodLog(log) && j < |Of(log, s)|
    ensures Filter(log, s, Number(Of(log, s)[j]) + 1) == Of(log, s)[j + 1..]
  {
    OfRising(log, s);
    hide Filter, GoodLog;
    FilterSuffix(log, s, Number(Of(log, s)[j]) + 1, j + 1);
  }

  lemma RestartKeepsLane(log: seq<Event>, s: string, l: Lane, base: nat, n: nat, number: nat)
    requires GoodLog(log) && LaneSound(log, s, l, base, n)
    requires number == 0 || Accepted(l, number)
    ensures LaneSound(log, s, Restarted(l), number, n)
  {
    hide Filter, GoodLog, Accepted;
    var c := RestartPlace(log, s, l, n, number);
    var all, q := Of(log, s), Filter(log, s, number + 1);
    assert |q| == |all| - c;
    assert Place(log, s, Restarted(l), number) == c;
    assert LaneFits(all, Restarted(l), c, n);
  }

  lemma LaneAfter(w: World, a: Action, k: Checkpoints.Key)
    ensures a.Dispatch? && k == a.key ==>
              LaneOf(PipelineRuns.Step(w, a), k) ==
              if a.move.Enter? && SymbolOf(a.move.event) != k.symbol then LaneOf(w, k) else Moved(LaneOf(w, k), a.move)
    ensures a.Finish? && k == a.key ==>
              LaneOf(PipelineRuns.Step(w, a), k) == if LaneOf(w, k).phase.Written? then LaneOf(w, k).(phase := Idle) else LaneOf(w, k)
    ensures a.Crash? ==> LaneOf(PipelineRuns.Step(w, a), k) == Restarted(LaneOf(w, k))
    ensures a.Snapshot? || a.Save? || ((a.Dispatch? || a.Finish?) && k != a.key) ==> LaneOf(PipelineRuns.Step(w, a), k) == LaneOf(w, k)
  {
    hide Moved;
  }

  /** Steps that settle nothing and are not a crash. */
  lemma QuietStep(cv: Conversion, log: seq<Event>, initial: Table, y: System, op: Op, s: string, n: nat)
    requires GoodLog(log) && SymbolOk(cv, log, initial, y, s, n) && !op.Settle? && !op.CrashAndRestart?
    ensures SymbolOk(cv, log, initial, Operate(cv, log, y, op), s, n)
  {
    hide GoodLog, DbOk, LaneSound, PipelineRuns.Step, Filter, Moved, LaneOf;
    var l, base := LaneAt(y, s), Base(y, s);
    match op
    case Deliver(t) =>
      var q, i := Queue(log, y, t), |LaneAt(y, t).arrivals|;
      if i < |q| {
        LaneAfter(y.world, Dispatch(LaneKey(t), Enter(q[i])), LaneKey(s));
        if t == s {
          MoveKeepsLane(log, s, l, base, Enter(q[i]), n);
        }
      }
    case CheckOffset(t) =>
      LaneAfter(y.world, Dispatch(LaneKey(t), Check), LaneKey(s));
      MoveKeepsLane(log, s, l, base, Check, n);
    case Advance(t) =>
      LaneAfter(y.world, Dispatch(LaneKey(t), WriteOffset), LaneKey(s));
      MoveKeepsLane(log, s, l, base, WriteOffset, n);
    case Done(t, recorded) =>
      LaneAfter(y.world, Finish(LaneKey(t), recorded), LaneKey(s));
      if l.phase.Written? {
        FinishKeepsLane(log, s, l, base, n);
      }
    case OtherProcessor(k, m) => LaneAfter(y.world, Dispatch(k, m), LaneKey(s));
    case OtherDone(k, recorded) => LaneAfter(y.world, Finish(k, recorded), LaneKey(s));
    case Flush(f) => LaneAfter(y.world, Snapshot(f), LaneKey(s));
    case SaveOne(f, m, ok) => LaneAfter(y.world, Save(f, m, ok), LaneKey(s));
  }

  lemma CrashStep(cv: Conversion, log: seq<Event>, initial: Table, y: System, s: string, n: nat)
    requires GoodLog(log) && SymbolOk(cv, log, initial, y, s, n) && MarksOk(y.world)
    ensures SymbolOk(cv, log, initial, Operate(cv, log, y, CrashAndRestart), s, n)
  {
    var k := LaneKey(s);
    var number := if k in y.world.stored then y.world.stored[k] else 0;
    if k in y.world.stored {
      assert MarkOk(y.world, Mark(k, y.world.stored[k]));
    }
    hide GoodLog, DbOk, LaneSound, PipelineRuns.Step, Accepted, MarksOk, LaneOf;
    LaneAfter(y.world, Crash, k);
    RestartKeepsLane(log, s, LaneAt(y, s), Base(y, s), n, number);
  }

  lemma SettleOwnStep(cv: Conversion, log: seq<Event>, initial: Table, y: System, s: string, n: nat)
    requires GoodLog(log) && Settles(cv, log, initial) && SymbolOk(cv, log, initial, y, s, n)
    ensures Somewhere(cv, log, initial, Operate(cv, log, y, Settle(s)), s)
  {
    hide GoodLog, DbOk, LaneSound, PipelineRuns.Step, Moved, LaneOf, Settles, Accepts, SettledEvent, Filter;
    var l, base := LaneAt(y, s), Base(y, s);
    if l.phase.Checked? {
      ProcessKeepsLane(log, s, l, base, n);
      var p := Place(log, s, l, base);
      SettleOwn(cv, log, initial, y.db, s, n, p);
      LaneAfter(y.world, Dispatch(LaneKey(s), Process(true)), LaneKey(s));
      assert SymbolOk(cv, log, initial, Operate(cv, log, y, Settle(s)), s, Next(p, n));
    } else {
      assert SymbolOk(cv, log, initial, y, s, n);
    }
  }

  lemma SettleOtherStep(cv: Conversion, log: seq<Event>, initial: Table, y: System, t: string, m: nat, s: string, n: nat)
    requires GoodLog(log) && SymbolOk(cv, log, initial, y, t, m) && SymbolOk(cv, log, initial, y, s, n) && s != t
    ensures SymbolOk(cv, log, initial, Operate(cv, log, y, Settle(t)), s, n)
  {
    hide GoodLog, DbOk, LaneSound, PipelineRuns.Step, LaneOf, Accepts, SettledEvent, Filter;
    var l := LaneAt(y, t);
    if l.phase.Checked? {
      ProcessKeepsLane(log, t, l, Base(y, t), m);
      OfMembers(log, t, 1);
      assert l.phase.event in Of(log, t);
      SettleOther(cv, log, initial, y.db, s, n, l.phase.event);
      LaneAfter(y.world, Dispatch(LaneKey(t), Process(Accepts(cv, y.db, l.phase.event))), LaneKey(s));
    }
  }

  lemma OperateKeepsSymbol(cv: Conversion, log: seq<Event>, initial: Table, y: System, op: Op, s: string)
    requires GoodLog(log) && Settles(cv, log, initial) && SystemOk(cv, log, initial, y)
    ensures Somewhere(cv, log, initial, Operate(cv, log, y, op), s)
  {
    hide GoodLog, Settles, SymbolOk, LanesOk, MarksOk, Operate;
    assert Somewhere(cv, log, initial, y, s);
    var n: nat :| SymbolOk(cv, log, initial, y, s, n);
    if op.CrashAndRestart? {
      CrashStep(cv, log, initial, y, s, n);
    } else if !op.Settle? {
      QuietStep(cv, log, initial, y, op, s, n);
    } else if op.symbol == s {
      SettleOwnStep(cv, log, initial, y, s, n);
    } else {
      assert Somewhere(cv, log, initial, y, op.symbol);
      var m: nat :| SymbolOk(cv, log, initial, y, op.symbol, m);
      SettleOtherStep(cv, log, initial, y, op.symbol, m, s, n);
    }
  }

  /** Every operation is a step of the pipeline or nothing. */
  lemma OperateIsStep(cv: Conversion, log: seq<Event>, y: System, op: Op)
    requires LanesOk(y.world) && MarksOk(y.world)
    ensures LanesOk(Operate(cv, log, y, op).world) && MarksOk(Operate(cv, log, y, op).world)
  {
    hide LanesOk, MarksOk, PipelineRuns.Step, Filter, Accepts, SettledEvent;
    forall a: Action ensures LanesOk(PipelineRuns.Step(y.world, a)) && MarksOk(PipelineRuns.Step(y.world, a)) {
      StepKeeps(y.world, a);
    }
  }

  lemma OperateKeeps(cv: Conversion, log: seq<Event>, initial: Table, y: System, op: Op)
    requires GoodLog(log) && Settles(cv, log, initial) && SystemOk(cv, log, initial, y)
    ensures SystemOk(cv, log, initial, Operate(cv, log, y, op))
  {
    hide GoodLog, Settles, Somewhere, LanesOk, MarksOk, Operate;
    var next := Operate(cv, log, y, op);
    OperateIsStep(cv, log, y, op);
    forall s: string ensures Somewhere(cv, log, initial, next, s) {
      OperateKeepsSymbol(cv, log, initial, y, op, s);
    }
  }

  lemma {:induction false} OperatedKeeps(cv: Conversion, log: seq<Event>, initial: Table, y: System, ops: seq<Op>)
    requires GoodLog(log) && Settles(cv, log, initial) && SystemOk(cv, log, initial, y)
    ensures SystemOk(cv, log, initial, Operated(cv, log, y, ops))
    decreases |ops|
  {
    hide GoodLog, Settles, SystemOk, Operate;
    if ops != [] {
      OperateKeeps(cv, log, initial, y, ops[0]);
      OperatedKeeps(cv, log, initial, Operate(cv, log, y, ops[0]), ops[1..]);
    }
  }

  /** A system before its first start: nothing dispatched, no checkpoint, no trade of the log settled. */
  ghost predicate Initial(log: seq<Event>, initial: Table, y: System) {
    && Unused(y.world) && y.base == map[] && y.db.positions == initial
    && forall i :: 0 <= i < |log| && log[i].TradeExecuted? ==> !Marked(y.db.outbox, log[i].trade.tradeId)
  }

  lemma InitialSymbol(cv: Conversion, log: seq<Event>, initial: Table, y: System, s: string)
    requires Initial(log, initial, y)
    ensures SymbolOk(cv, log, initial, y, s, 0)
  {
    OfMembers(log, s, 1);
    hide Filter, Restrict, Marked;
    var all := Of(log, s);
    forall i | 0 <= i < |all| && all[i].TradeExecuted? ensures !Marked(y.db.outbox, all[i].trade.tradeId) {
      assert all[i] in all;
      var j :| 0 <= j < |log| && log[j] == all[i];
    }
    assert all[..0] == [] && all[|all| - |all|..] == all;
    assert LaneAt(y, s) == FRESH && Base(y, s) == 0;
  }

  lemma InitialOk(cv: Conversion, log: seq<Event>, initial: Table, y: System)
    requires Initial(log, initial, y)
    ensures SystemOk(cv, log, initial, y)
  {
    hide SymbolOk;
    forall s: string ensures Somewhere(cv, log, initial, y, s) {
      InitialSymbol(cv, log, initial, y, s);
    }
  }

  lemma CaughtUpSymbol(cv: Conversion, log: seq<Event>, initial: Table, y: System, s: string, n: nat)
    requires SymbolOk(cv, log, initial, y, s, n) && CaughtUp(log, y, s)
    ensures Fold(cv, Restrict(initial, s), Trades(Of(log, s))) == Some(Restrict(y.db.positions, s))
  {
    hide Filter, Restrict, Marked, Fold, Trades, LaneOf;
    var all := Of(log, s);
    assert n == |all| && all[..n] == all;
  }

  lemma SameRows(a: Table, b: Table)
    requires forall s: string :: Restrict(a, s) == Restrict(b, s)
    ensures a == b
  {
    forall k: Positions.Key ensures k in a <==> k in b
                            ensures k in a ==> k in b && a[k] == b[k]
    {
      assert k in Restrict(a, k.symbol) <==> k in a;
      assert k in Restrict(b, k.symbol) <==> k in b;
      assert Restrict(a, k.symbol) == Restrict(b, k.symbol);
    }
  }

  /** A system that has caught up with the log holds the positions of settling its trades once, in log order. */
  lemma CaughtUpPositions(cv: Conversion, log: seq<Event>, initial: Table, z: System)
    requires GoodLog(log) && Fold(cv, initial, Trades(log)).Some? && SystemOk(cv, log, initial, z)
    requires forall s: string :: CaughtUp(log, z, s)
    ensures z.db.positions == Fold(cv, initial, Trades(log)).value
  {
    hide SymbolOk, Fold, Trades, Restrict, CaughtUp, LanesOk, MarksOk, Filter;
    forall s: string ensures Restrict(z.db.positions, s) == Restrict(Fold(cv, initial, Trades(log)).value, s) {
      assert Somewhere(cv, log, initial, z, s) && CaughtUp(log, z, s);
      var n: nat :| SymbolOk(cv, log, initial, z, s, n);
      CaughtUpSymbol(cv, log, initial, z, s, n);
      FoldRestricts(cv, initial, log, s);
    }
    SameRows(z.db.positions, Fold(cv, initial, Trades(log)).value);
  }

  lemma ReachableOk(cv: Conversion, log: seq<Event>, initial: Table, y: System, ops: seq<Op>)
    requires GoodLog(log) && Fold(cv, initial, Trades(log)).Some? && Initial(log, initial, y)
    ensures Settles(cv, log, initial) && SystemOk(cv, log, initial, Operated(cv, log, y, ops))
  {
    SettlesIfLogDoes(cv, log, initial);
    InitialOk(cv, log, initial, y);
    OperatedKeeps(cv, log, initial, y, ops);
  }

  /** After any run with any crashes, whenever every symbol has caught up, the positions are those of settling
      the trades of the log once, in log order. */
  lemma RecoveredPositions(cv: Conversion, log: seq<Event>, initial: Table, y: System, ops: seq<Op>)
    requires GoodLog(log) && Fold(cv, initial, Trades(log)).Some? && Initial(log, initial, y)
    requires forall s: string :: CaughtUp(log, Operated(cv, log, y, ops), s)
    ensures Operated(cv, log, y, ops).db.positions == Fold(cv, initial, Trades(log)).value
  {
    ReachableOk(cv, log, initial, y, ops);
    CaughtUpPositions(cv, log, initial, Operated(cv, log, y, ops));
  }

  // ---- replay to the end ----

  function OneMore(cv: Conversion, log: seq<Event>, y: System, s: string): System {
    var entered := Operate(cv, log, Operate(cv, log, y, Deliver(s)), CheckOffset(s));
    Operate(cv, log, Operate(cv, log, Operate(cv, log, entered, Settle(s)), Advance(s)), Done(s, false))
  }

  /** Replay never gets stuck: while a symbol has not caught up, its next event passes the duplicate check,
      is accepted and makes room for the one after it. */
  lemma ReplayAdvances(cv: Conversion, log: seq<Event>, initial: Table, y: System, s: string)
    requires GoodLog(log) && Settles(cv, log, initial) && SystemOk(cv, log, initial, y)
    requires LaneAt(y, s).phase.Idle? && !CaughtUp(log, y, s)
    ensures var z := OneMore(cv, log, y, s);
            && LaneAt(z, s).phase.Idle? && z.base == y.base
            && |LaneAt(y, s).arrivals| < |Queue(log, y, s)|
            && LaneAt(z, s).arrivals == LaneAt(y, s).arrivals + [Pipelines.Arrival(Queue(log, y, s)[|LaneAt(y, s).arrivals|], true)]
  {
    hide GoodLog, Settles, SymbolOk, LanesOk, MarksOk, Operate, LaneAt, Filter;
    assert Somewhere(cv, log, initial, y, s);
    var n: nat :| SymbolOk(cv, log, initial, y, s, n);
    EnterAndCheck(cv, log, initial, y, s, n);
    var a := Operate(cv, log, y, Deliver(s));
    var b := Operate(cv, log, a, CheckOffset(s));
    QuietStep(cv, log, initial, y, Deliver(s), s, n);
    QuietStep(cv, log, initial, a, CheckOffset(s), s, n);
    SettleAndLeave(cv, log, initial, b, s, n);
  }

  /** The offset is behind the next event of the queue. */
  lemma NextIsAhead(log: seq<Event>, s: string, l: Lane, base: nat, n: nat)
    requires GoodLog(log) && LaneSound(log, s, l, base, n) && |l.arrivals| < |Filter(log, s, base + 1)|
    ensures l.offset < Number(Filter(log, s, base + 1)[|l.arrivals|])
    ensures SymbolOf(Filter(log, s, base + 1)[|l.arrivals|]) == s
  {
    OfRising(log, s);
    OfMembers(log, s, base + 1);
    hide Filter, GoodLog;
    var p := Place(log, s, l, base);
    assert Filter(log, s, base + 1)[|l.arrivals|] == Of(log, s)[p];
  }

  lemma EnterAndCheck(cv: Conversion, log: seq<Event>, initial: Table, y: System, s: string, n: nat)
    requires GoodLog(log) && SymbolOk(cv, log, initial, y, s, n)
    requires LaneAt(y, s).phase.Idle? && !CaughtUp(log, y, s)
    ensures var b := Operate(cv, log, Operate(cv, log, y, Deliver(s)), CheckOffset(s));
            && |LaneAt(y, s).arrivals| < |Queue(log, y, s)|
            && LaneAt(b, s).phase == Checked(Queue(log, y, s)[|LaneAt(y, s).arrivals|])
            && LaneAt(b, s).arrivals == LaneAt(y, s).arrivals && b.base == y.base
  {
    hide Filter, DbOk, GoodLog, LaneSound, LaneOf, PipelineRuns.Step;
    var l, k := LaneAt(y, s), LaneKey(s);
    var e := Queue(log, y, s)[|l.arrivals|];
    NextIsAhead(log, s, l, Base(y, s), n);
    var a := Operate(cv, log, y, Deliver(s));
    LaneAfter(y.world, Dispatch(k, Enter(e)), k);
    LaneAfter(a.world, Dispatch(k, Check), k);
  }

  lemma SettleAndLeave(cv: Conversion, log: seq<Event>, initial: Table, b: System, s: string, n: nat)
    requires GoodLog(log) && Settles(cv, log, initial) && SymbolOk(cv, log, initial, b, s, n) && LaneAt(b, s).phase.Checked?
    ensures var z := Operate(cv, log, Operate(cv, log, Operate(cv, log, b, Settle(s)), Advance(s)), Done(s, false));
            && LaneAt(z, s).phase.Idle? && z.base == b.base
            && LaneAt(z, s).arrivals == LaneAt(b, s).arrivals + [Pipelines.Arrival(LaneAt(b, s).phase.event, true)]
  {
    hide DbOk, LaneSound, Filter, GoodLog, Settles, Accepts, SettledEvent, LaneOf, PipelineRuns.Step;
    var l, k := LaneAt(b, s), LaneKey(s);
    ProcessKeepsLane(log, s, l, Base(b, s), n);
    SettleOwn(cv, log, initial, b.db, s, n, Place(log, s, l, Base(b, s)));
    var c := Operate(cv, log, b, Settle(s));
    LaneAfter(b.world, Dispatch(k, Process(true)), k);
    var d := Operate(cv, log, c, Advance(s));
    LaneAfter(c.world, Dispatch(k, WriteOffset), k);
    LaneAfter(d.world, Finish(k, false), k);
  }

  /** A step for one symbol leaves the lanes of the others alone. */
  lemma OtherLanes(cv: Conversion, log: seq<Event>, y: System, op: Op, x: string)
    requires op.Deliver? || op.CheckOffset? || op.Settle? || op.Advance? || op.Done?
    requires op.symbol != x
    ensures LaneAt(Operate(cv, log, y, op), x) == LaneAt(y, x) && Operate(cv, log, y, op).base == y.base
  {
    hide Filter, LaneOf, PipelineRuns.Step, Accepts, SettledEvent;
    var s, k := op.symbol, LaneKey(x);
    match op
    case Deliver(_) =>
      var q, i := Queue(log, y, s), |LaneAt(y, s).arrivals|;
      if i < |q| {
        LaneAfter(y.world, Dispatch(LaneKey(s), Enter(q[i])), k);
      }
    case CheckOffset(_) => LaneAfter(y.world, Dispatch(LaneKey(s), Check), k);
    case Settle(_) =>
      var l := LaneAt(y, s);
      if l.phase.Checked? {
        LaneAfter(y.world, Dispatch(LaneKey(s), Process(Accepts(cv, y.db, l.phase.event))), k);
      }
    case Advance(_) => LaneAfter(y.world, Dispatch(LaneKey(s), WriteOffset), k);
    case Done(_, recorded) => LaneAfter(y.world, Finish(LaneKey(s), recorded), k);
  }

  lemma OneMoreKeeps(cv: Conversion, log: seq<Event>, initial: Table, y: System, s: string)
    requires GoodLog(log) && Settles(cv, log, initial) && SystemOk(cv, log, initial, y)
    ensures SystemOk(cv, log, initial, OneMore(cv, log, y, s))
    ensures forall x: string :: x != s ==> LaneAt(OneMore(cv, log, y, s), x) == LaneAt(y, x)
  {
    hide GoodLog, Settles, SystemOk, Operate, LaneAt;
    var a := Operate(cv, log, y, Deliver(s));
    var b := Operate(cv, log, a, CheckOffset(s));
    var c := Operate(cv, log, b, Settle(s));
    var d := Operate(cv, log, c, Advance(s));
    OperateKeeps(cv, log, initial, y, Deliver(s));
    OperateKeeps(cv, log, initial, a, CheckOffset(s));
    OperateKeeps(cv, log, initial, b, Settle(s));
    OperateKeeps(cv, log, initial, c, Advance(s));
    OperateKeeps(cv, log, initial, d, Done(s, false));
    forall x: string | x != s ensures LaneAt(OneMore(cv, log, y, s), x) == LaneAt(y, x) {
      OtherLanes(cv, log, y, Deliver(s), x);
      OtherLanes(cv, log, a, CheckOffset(s), x);
      OtherLanes(cv, log, b, Settle(s), x);
      OtherLanes(cv, log, c, Advance(s), x);
      OtherLanes(cv, log, d, Done(s, false), x);
    }
  }

  /** Events of a symbol still to be delivered in this life of the process. */
  function Left(log: seq<Event>, y: System, s: string): nat {
    var all, done := |Queue(log, y, s)|, |LaneAt(y, s).arrivals|;
    if all > done then all - done else 0
  }

  /** Events that arrived and were accepted. */
  function Taken(es: seq<Event>): seq<Pipelines.Arrival> {
    seq(|es|, i requires 0 <= i < |es| => Pipelines.Arrival(es[i], true))
  }

  /** What arrived in this life is the front of the symbol's queue, all accepted. */
  ghost predicate Through(log: seq<Event>, y: System, s: string) {
    var q, a := Queue(log, y, s), LaneAt(y, s).arrivals;
    |a| <= |q| && a == Taken(q[..|a|])
  }

  lemma OneMoreThrough(log: seq<Event>, y: System, z: System, s: string)
    requires z.base == y.base && |LaneAt(y, s).arrivals| < |Queue(log, y, s)|
    requires LaneAt(z, s).arrivals == LaneAt(y, s).arrivals + [Pipelines.Arrival(Queue(log, y, s)[|LaneAt(y, s).arrivals|], true)]
    ensures Through(log, y, s) ==> Through(log, z, s)
  {
    hide Filter, LaneAt;
    var q, n := Queue(log, y, s), |LaneAt(y, s).arrivals|;
    assert Queue(log, z, s) == q;
    assert Taken(q[..n + 1]) == Taken(q[..n]) + [Pipelines.Arrival(q[n], true)];
  }

  /** `ProcessEventsFromLog` for one symbol: so many events, one after the other. */
  function CatchUp(cv: Conversion, log: seq<Event>, y: System, s: string, n: nat): System
    decreases n
  {
    if n == 0 then y else CatchUp(cv, log, OneMore(cv, log, y, s), s, n - 1)
  }

  lemma {:induction false} CatchUpCompletes(cv: Conversion, log: seq<Event>, initial: Table, y: System, s: string, n: nat)
    requires GoodLog(log) && Settles(cv, log, initial) && SystemOk(cv, log, initial, y)
    requires LaneAt(y, s).phase.Idle? && Left(log, y, s) == n
    ensures var z := CatchUp(cv, log, y, s, n);
            && SystemOk(cv, log, initial, z) && CaughtUp(log, z, s) && z.base == y.base
            && (Through(log, y, s) ==> Through(log, z, s))
            && forall x: string :: x != s ==> LaneAt(z, x) == LaneAt(y, x)
    decreases n
  {
    hide GoodLog, Settles, SystemOk, OneMore, LaneAt, Filter;
    if n > 0 {
      var next := OneMore(cv, log, y, s);
      ReplayAdvances(cv, log, initial, y, s);
      OneMoreKeeps(cv, log, initial, y, s);
      assert Queue(log, next, s) == Queue(log, y, s);
      OneMoreThrough(log, y, next, s);
      hide Through;
      CatchUpCompletes(cv, log, initial, next, s, n - 1);
    }
  }

  function SymbolsOf(log: seq<Event>): seq<string> {
    seq(|log|, i requires 0 <= i < |log| => SymbolOf(log[i]))
  }

  function ReplayAll(cv: Conversion, log: seq<Event>, y: System, symbols: seq<string>): System
    decreases |symbols|
  {
    if symbols == [] then y
    else ReplayAll(cv, log, CatchUp(cv, log, y, symbols[0], Left(log, y, symbols[0])), symbols[1..])
  }

  ghost predicate AllIdle(y: System) {
    forall s: string :: LaneAt(y, s).phase.Idle?
  }

  lemma SameQueue(log: seq<Event>, y: System, z: System, x: string)
    requires z.base == y.base && LaneAt(z, x) == LaneAt(y, x)
    ensures CaughtUp(log, z, x) == CaughtUp(log, y, x) && Through(log, z, x) == Through(log, y, x)
  {
    hide LaneAt, Filter;
  }

  lemma {:induction false} ReplayAllCompletes(cv: Conversion, log: seq<Event>, initial: Table, y: System, symbols: seq<string>)
    requires GoodLog(log) && Settles(cv, log, initial) && SystemOk(cv, log, initial, y) && AllIdle(y)
    ensures var z := ReplayAll(cv, log, y, symbols);
            && SystemOk(cv, log, initial, z) && z.base == y.base
            && (forall x: string :: Through(log, y, x) ==> Through(log, z, x))
            && forall x: string :: x in symbols || CaughtUp(log, y, x) ==> CaughtUp(log, z, x)
    decreases |symbols|
  {
    hide GoodLog, Settles, SystemOk, CatchUp, LaneAt, Filter;
    if symbols != [] {
      var s := symbols[0];
      var next := CatchUp(cv, log, y, s, Left(log, y, s));
      CatchUpCompletes(cv, log, initial, y, s, Left(log, y, s));
      forall x: string ensures LaneAt(next, x).phase.Idle?
                       ensures x == s || CaughtUp(log, y, x) ==> CaughtUp(log, next, x)
                       ensures Through(log, y, x) ==> Through(log, next, x)
      {
        if x != s {
          SameQueue(log, y, next, x);
        }
      }
      hide CaughtUp, Left, Through;
      ReplayAllCompletes(cv, log, initial, next, symbols[1..]);
      assert symbols == [s] + symbols[1..];
    }
  }

  /** A crash, and on the new start a replay of every symbol of the log from its stored checkpoint. */
  function Recovered(cv: Conversion, log: seq<Event>, y: System): System {
    ReplayAll(cv, log, Operate(cv, log, y, CrashAndRestart), SymbolsOf(log))
  }

  lemma RestartIsIdle(cv: Conversion, log: seq<Event>, y: System)
    ensures AllIdle(Operate(cv, log, y, CrashAndRestart))
  {
    hide LaneOf, PipelineRuns.Step;
    forall s: string ensures LaneAt(Operate(cv, log, y, CrashAndRestart), s).phase.Idle? {
      LaneAfter(y.world, Crash, LaneKey(s));
    }
  }

  lemma {:induction false} NoEventsNoQueue(log: seq<Event>, s: string, start: nat)
    requires forall i :: 0 <= i < |log| ==> SymbolOf(log[i]) != s
    ensures Filter(log, s, start) == []
  {
    if log != [] {
      NoEventsNoQueue(log[..|log| - 1], s, start);
    }
  }

  /** A symbol without events has nothing to replay. */
  lemma NoEventsCaughtUp(log: seq<Event>, y: System, s: string)
    requires s !in SymbolsOf(log) && LaneAt(y, s).phase.Idle?
    ensures CaughtUp(log, y, s)
  {
    hide Filter, LaneAt;
    forall i | 0 <= i < |log| ensures SymbolOf(log[i]) != s {
      assert SymbolsOf(log)[i] in SymbolsOf(log);
    }
    NoEventsNoQueue(log, s, Base(y, s) + 1);
  }

  lemma RestartIsThrough(cv: Conversion, log: seq<Event>, y: System, s: string)
    ensures Through(log, Operate(cv, log, y, CrashAndRestart), s)
  {
    hide LaneOf, PipelineRuns.Step, Filter;
    LaneAfter(y.world, Crash, LaneKey(s));
    assert Taken(Queue(log, Operate(cv, log, y, CrashAndRestart), s)[..0]) == [];
  }

  lemma CaughtUpTookAll(log: seq<Event>, y: System, s: string)
    requires CaughtUp(log, y, s) && Through(log, y, s)
    ensures LaneAt(y, s).arrivals == Taken(Queue(log, y, s))
  {
    hide Filter, LaneAt;
    var q := Queue(log, y, s);
    assert q[..|q|] == q;
  }

  lemma QueueInOrder(log: seq<Event>, y: System, s: string)
    requires GoodLog(log) && QueueOk(log, s, Base(y, s))
    ensures Pipelines.Increasing(Queue(log, y, s)) && forall i :: 0 <= i < |Queue(log, y, s)| ==> Number(Queue(log, y, s)[i]) > 0
  {
    OfRising(log, s);
    hide Filter, GoodLog;
  }

  /** The replay of the machine is the replay of the pipeline's method: after recovery a symbol's lane has applied
      what `ProcessEventsFromLog` from the stored checkpoint + 1 applies on an empty slot, and that is the whole
      of the queried log, in order. */
  lemma ReplayIsProcessEventsFromLog(cv: Conversion, log: seq<Event>, initial: Table, y: System, ops: seq<Op>, s: string)
    requires GoodLog(log) && Fold(cv, initial, Trades(log)).Some? && Initial(log, initial, y)
    ensures var crashed := Operated(cv, log, y, ops);
            var applied := LaneAt(Recovered(cv, log, crashed), s).applied;
            && applied == Backlog(log, crashed, s)
            && applied == Pipelines.DeliveredSeq(Pipelines.Slot(0, []), Backlog(log, crashed, s), POSITION_PROCESSOR, (p, e) => true).applied
  {
    ReachableOk(cv, log, initial, y, ops);
    var crashed := Operated(cv, log, y, ops);
    hide *;
    RecoveredApplied(cv, log, initial, crashed, s);
  }

  /** What this process replays after a crash in this state: everything above the stored checkpoint. */
  function Backlog(log: seq<Event>, crashed: System, s: string): seq<Event> {
    Filter(log, s, if LaneKey(s) in crashed.world.stored then crashed.world.stored[LaneKey(s)] + 1 else 1)
  }

  lemma RecoveredApplied(cv: Conversion, log: seq<Event>, initial: Table, crashed: System, s: string)
    requires GoodLog(log) && Settles(cv, log, initial) && SystemOk(cv, log, initial, crashed)
    ensures var applied, q := LaneAt(Recovered(cv, log, crashed), s).applied, Backlog(log, crashed, s);
            applied == q && applied == Pipelines.DeliveredSeq(Pipelines.Slot(0, []), q, POSITION_PROCESSOR, (p, e) => true).applied
  {
    hide *;
    RestartQueue(cv, log, initial, crashed, s);
    RecoveredTook(cv, log, initial, crashed, s);
    AppliedWhatArrived(Recovered(cv, log, crashed), s);
    TakenApplied(Backlog(log, crashed, s));
    MethodApplies(Backlog(log, crashed, s));
  }

  lemma MethodApplies(q: seq<Event>)
    requires Pipelines.Increasing(q) && forall i :: 0 <= i < |q| ==> Number(q[i]) > 0
    ensures Pipelines.DeliveredSeq(Pipelines.Slot(0, []), q, POSITION_PROCESSOR, (p, e) => true).applied == q
  {
    hide Pipelines.DeliveredSeq;
    Pipelines.ReplayAppliesAll(Pipelines.Slot(0, []), q, POSITION_PROCESSOR, (p, e) => true);
    assert [] + q == q;
  }

  /** What a restarted process has to replay, and that it comes in order. */
  lemma RestartQueue(cv: Conversion, log: seq<Event>, initial: Table, crashed: System, s: string)
    requires GoodLog(log) && Settles(cv, log, initial) && SystemOk(cv, log, initial, crashed)
    ensures var q := Queue(log, Operate(cv, log, crashed, CrashAndRestart), s);
            && q == Backlog(log, crashed, s)
            && Pipelines.Increasing(q) && forall i :: 0 <= i < |q| ==> Number(q[i]) > 0
  {
    var restarted := Operate(cv, log, crashed, CrashAndRestart);
    assert restarted.base == crashed.world.stored;
    hide Operate, Filter, Settles, SystemOk, GoodLog;
    OperateKeeps(cv, log, initial, crashed, CrashAndRestart);
    SymbolQueueOk(cv, log, initial, restarted, s);
    QueueInOrder(log, restarted, s);
  }

  /** After recovery everything queued at the restart has arrived and been accepted. */
  lemma RecoveredTook(cv: Conversion, log: seq<Event>, initial: Table, crashed: System, s: string)
    requires GoodLog(log) && Settles(cv, log, initial) && SystemOk(cv, log, initial, crashed)
    ensures LanesOk(Recovered(cv, log, crashed).world)
    ensures LaneAt(Recovered(cv, log, crashed), s).arrivals == Taken(Queue(log, Operate(cv, log, crashed, CrashAndRestart), s))
  {
    hide Operate, LaneAt, Filter, Settles, ReplayAll, SystemOk, GoodLog, CaughtUp, Through;
    var restarted := Operate(cv, log, crashed, CrashAndRestart);
    OperateKeeps(cv, log, initial, crashed, CrashAndRestart);
    RestartIsIdle(cv, log, crashed);
    RestartIsThrough(cv, log, crashed, s);
    ReplayAllCompletes(cv, log, initial, restarted, SymbolsOf(log));
    if s !in SymbolsOf(log) {
      NoEventsCaughtUp(log, restarted, s);
    }
    var z := ReplayAll(cv, log, restarted, SymbolsOf(log));
    assert Queue(log, z, s) == Queue(log, restarted, s);
    CaughtUpTookAll(log, z, s);
    OkHasLanes(cv, log, initial, z);
  }

  lemma OkHasLanes(cv: Conversion, log: seq<Event>, initial: Table, y: System)
    requires SystemOk(cv, log, initial, y)
    ensures LanesOk(y.world)
  {
  }

  lemma SymbolQueueOk(cv: Conversion, log: seq<Event>, initial: Table, y: System, s: string)
    requires SystemOk(cv, log, initial, y)
    ensures QueueOk(log, s, Base(y, s))
  {
    hide DbOk, LaneFits, LanesOk, MarksOk, Filter;
    assert Somewhere(cv, log, initial, y, s);
  }

  lemma AppliedWhatArrived(z: System, s: string)
    requires LanesOk(z.world)
    ensures LaneAt(z, s).applied == Pipelines.DeliveredAll(LaneAt(z, s).arrivals).applied
  {
  }

  lemma TakenApplied(q: seq<Event>)
    requires Pipelines.Increasing(q) && forall i :: 0 <= i < |q| ==> Number(q[i]) > 0
    ensures Pipelines.DeliveredAll(Taken(q)).applied == q
  {
    hide Pipelines.DeliveredAll;
    Pipelines.NothingLostIff(Taken(q));
    assert Pipelines.EventsOf(Taken(q)) == q;
  }

  /** Crash at any point of any run, with any crashes and partial replays before it: the restart followed by the
      replay of the log reaches the positions of one crash-free pass. */
  lemma CrashAndReplayRecovers(cv: Conversion, log: seq<Event>, initial: Table, y: System, ops: seq<Op>)
    requires GoodLog(log) && Fold(cv, initial, Trades(log)).Some? && Initial(log, initial, y)
    ensures Recovered(cv, log, Operated(cv, log, y, ops)).db.positions == Fold(cv, initial, Trades(log)).value
  {
    ReachableOk(cv, log, initial, y, ops);
    hide GoodLog, Settles, SystemOk, Operate, Fold, Trades, Operated, ReplayAll, CaughtUp, Initial;
    var crashed := Operated(cv, log, y, ops);
    var restarted := Operate(cv, log, crashed, CrashAndRestart);
    OperateKeeps(cv, log, initial, crashed, CrashAndRestart);
    RestartIsIdle(cv, log, crashed);
    ReplayAllCompletes(cv, log, initial, restarted, SymbolsOf(log));
    forall s: string ensures CaughtUp(log, ReplayAll(cv, log, restarted, SymbolsOf(log)), s) {
      if s !in SymbolsOf(log) {
        NoEventsCaughtUp(log, restarted, s);
      }
    }
    CaughtUpPositions(cv, log, initial, ReplayAll(cv, log, restarted, SymbolsOf(log)));
  }
}
