/** The event log: one global sequence with an index of positions per symbol
    (biz/service/event_log_memory.go). */
module EventLogs {
  import opened Options
  import opened Matching

  /** An event of the matching engine; only trades move positions. */
  datatype Event = TradeExecuted(trade: Trade) | OtherEvent(number: nat, symbol: string, kind: string)

  function Number(e: Event): nat {
    match e
    case TradeExecuted(t) => t.number
    case OtherEvent(n, _, _) => n
  }

  function SymbolOf(e: Event): string {
    match e
    case TradeExecuted(t) => t.symbol
    case OtherEvent(_, s, _) => s
  }

  /** The plain reading of a query: the log filtered by symbol and lowest sequence number. */
  function Filter(events: seq<Event>, symbol: string, start: nat): seq<Event> {
    if events == [] then []
    else
      var init, e := events[..|events| - 1], events[|events| - 1];
      Filter(init, symbol, start) + if SymbolOf(e) == symbol && Number(e) >= start then [e] else []
  }

  /** A positive limit keeps the first that many; any other limit keeps all. */
  function Limited(es: seq<Event>, limit: int): seq<Event> {
    if 0 < limit < |es| then es[..limit] else es
  }

  /** A limit keeps the earliest events. */
  lemma LimitedIsPrefix(es: seq<Event>, limit: int)
    ensures Limited(es, limit) <= es
    ensures |Limited(es, limit)| == if limit > 0 && limit < |es| then limit else |es|
  {
  }

  /** Positions of a symbol's events in the log, ascending. */
  function Places(events: seq<Event>, symbol: string): (ps: seq<nat>)
    ensures forall i :: 0 <= i < |ps| ==> ps[i] < |events|
  {
    if events == [] then []
    else
      var n := |events| - 1;
      Places(events[..n], symbol) + if SymbolOf(events[n]) == symbol then [n] else []
  }

  /** The events at some positions that reach the lowest sequence number. */
  function Select(events: seq<Event>, ps: seq<nat>, start: nat): seq<Event>
    requires forall i :: 0 <= i < |ps| ==> ps[i] < |events|
  {
    if ps == [] then []
    else
      var e := events[ps[|ps| - 1]];
      Select(events, ps[..|ps| - 1], start) + if Number(e) >= start then [e] else []
  }

  lemma {:induction false} SelectOfPrefix(events: seq<Event>, e: Event, ps: seq<nat>, start: nat)
    requires forall i :: 0 <= i < |ps| ==> ps[i] < |events|
    ensures Select(events + [e], ps, start) == Select(events, ps, start)
  {
    if ps != [] {
      SelectOfPrefix(events, e, ps[..|ps| - 1], start);
    }
  }

  /** Reading through the index is filtering the log. */
  lemma {:induction false} IndexAgreesWithFilter(events: seq<Event>, symbol: string, start: nat)
    ensures Select(events, Places(events, symbol), start) == Filter(events, symbol, start)
  {
    if events != [] {
      var n := |events| - 1;
      var init, e := events[..n], events[n];
      IndexAgreesWithFilter(init, symbol, start);
      assert events == init + [e];
      SelectOfPrefix(init, e, Places(init, symbol), start);
      if SymbolOf(e) == symbol {
        var ps := Places(events, symbol);
        assert ps[..|ps| - 1] == Places(init, symbol);
      } else {
        assert Places(init, symbol) + [] == Places(init, symbol);
        assert Filter(init, symbol, start) + [] == Filter(init, symbol, start);
      }
    }
  }

  lemma PlacesBounded(events: seq<Event>, symbol: string, start: nat)
    ensures forall i :: 0 <= i < |Places(events, symbol)| ==> Places(events, symbol)[i] < |events|
    ensures Select(events, [], start) == []
  {
  }

  lemma {:induction false} SelectGrows(events: seq<Event>, ps: seq<nat>, k: nat, start: nat)
    requires k <= |ps| && forall i :: 0 <= i < |ps| ==> ps[i] < |events|
    ensures Select(events, ps[..k], start) <= Select(events, ps, start)
  {
    if k == |ps| {
      assert ps[..k] == ps;
    } else {
      assert ps[..|ps| - 1][..k] == ps[..k];
      SelectGrows(events, ps[..|ps| - 1], k, start);
    }
  }

  /** One step of the query loop. */
  lemma SelectStep(events: seq<Event>, ps: seq<nat>, k: nat, start: nat)
    requires k < |ps| && forall i :: 0 <= i < |ps| ==> ps[i] < |events|
    ensures var e := events[ps[k]];
            Select(events, ps[..k + 1], start) == if Number(e) >= start then Select(events, ps[..k], start) + [e] else Select(events, ps[..k], start)
    ensures Select(events, ps[..k + 1], start) <= Select(events, ps, start)
  {
    assert ps[..k + 1][..k] == ps[..k];
    SelectGrows(events, ps, k + 1, start);
  }

  class InMemoryEventLog {
    var events: seq<Event>
    var symbolIndexes: map<string, seq<nat>>
    var symbolSeq: map<string, nat>

    ghost predicate Valid()
      reads this
    {
      forall s: string :: (if s in symbolIndexes then symbolIndexes[s] else []) == Places(events, s)
    }

    constructor ()
      ensures Valid() && events == [] && symbolSeq == map[]
    {
      events, symbolIndexes, symbolSeq := [], map[], map[];
    }

    /** A missing event and one that cannot be marshalled are refused. */
    method AppendEvent(event: Option<Event>, marshals: bool) returns (ok: bool)
      requires Valid()
      modifies this
      ensures Valid() && (ok <==> event.Some? && marshals)
      ensures ok ==> events == old(events) + [event.value]
                     && symbolSeq == old(symbolSeq)[SymbolOf(event.value) := Number(event.value)]
      ensures !ok ==> events == old(events) && symbolIndexes == old(symbolIndexes) && symbolSeq == old(symbolSeq)
    {
      if event.None? || !marshals {
        return false;
      }
      var e := event.value;
      var index := |events|;
      var symbol := SymbolOf(e);
      ghost var before := events;
      events := events + [e];
      symbolIndexes := symbolIndexes[symbol := (if symbol in symbolIndexes then symbolIndexes[symbol] else []) + [index]];
      symbolSeq := symbolSeq[symbol := Number(e)];
      assert events[..|before|] == before;
      return true;
    }

    method GetEventsBySymbol(symbol: string, startSeq: nat, limit: int) returns (result: seq<Event>)
      requires Valid()
      ensures result == Limited(Filter(events, symbol, startSeq), limit)
    {
      hide Select, Filter, Places;
      IndexAgreesWithFilter(events, symbol, startSeq);
      PlacesBounded(events, symbol, startSeq);
      if symbol !in symbolIndexes {
        return [];
      }
      var indexes := symbolIndexes[symbol];
      result := [];
      var k := 0;
      while k < |indexes|
        invariant 0 <= k <= |indexes|
        invariant result == Select(events, indexes[..k], startSeq)
        invariant limit > 0 ==> |result| < limit
      {
        var idx := indexes[k];
        if idx >= |events| {
          assert false;
        }
        var envelope := events[idx];
        SelectStep(events, indexes, k, startSeq);
        if Number(envelope) >= startSeq {
          result := result + [envelope];
          if limit > 0 && |result| >= limit {
            return;
          }
        }
        k := k + 1;
      }
      assert indexes[..k] == indexes;
    }
  }
}
