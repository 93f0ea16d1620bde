/** The order book itself: two price-ordered ladders of queues and the record of submitted orders, kept in
    place by `MatchOrder` and `CancelOrder` (biz/service/orderbook.go). */
module OrderBooks {
  import opened Int64s
  import opened Ladders
  import opened Matching
  import opened Sequencing
  import opened BookRuns

  /** A level is never empty and holds open entries of its own price and side. */
  predicate LevelOk(n: Node<seq<Order>>, buy: bool) {
    |n.value| > 0 && forall e <- n.value :: e.price == n.key && IsBuy(e.side) == buy && OpenOk(e)
  }

  predicate SideOk(l: Ladder<Order>, buy: bool) {
    Sorted(buy, l) && forall n <- l :: LevelOk(n, buy)
  }

  lemma {:induction false} FlatOk(l: Ladder<Order>, buy: bool)
    requires forall n <- l :: LevelOk(n, buy)
    ensures AllOpen(Flat(l)) && Keys(l) == Prices(Flat(l))
    ensures forall e <- Flat(l) :: IsBuy(e.side) == buy
  {
    if l != [] {
      assert LevelOk(l[0], buy);
      FlatOk(l[1..], buy);
      var q, rest := l[0].value, Flat(l[1..]);
      assert forall i :: 0 <= i < |q| ==> q[i] in q;
      assert Prices(q + rest) == Prices(q) + Prices(rest);
    }
  }

  lemma FlatFront(l: Ladder<Order>, buy: bool)
    requires SideOk(l, buy) && l != []
    ensures LevelOk(l[0], buy) && Flat(l) != [] && Flat(l)[0] == l[0].value[0]
    ensures l[0].value[0].price == l[0].key && OpenOk(l[0].value[0])
  {
    assert LevelOk(l[0], buy);
  }

  /** Rewriting the first level, or removing it when nothing is left of it. */
  lemma FrontRewritten(l: Ladder<Order>, buy: bool, q: seq<Order>)
    requires SideOk(l, buy) && l != [] && (q != [] ==> LevelOk(Node(l[0].key, q), buy))
    ensures var r := if |q| == 0 then Drop(l, l[0].key) else Put(buy, l, l[0].key, q);
            SideOk(r, buy) && Flat(r) == q + Flat(l[1..])
  {
    var n, t := Node(l[0].key, q), l[1..];
    if |q| > 0 {
      FlatCons(n, t);
      assert Put(buy, l, l[0].key, q) == [n] + t;
    }
  }

  lemma CutLevel(n: Node<seq<Order>>, buy: bool, t: int)
    requires LevelOk(n, buy) && OpenOk(n.value[0]) && 0 < t <= Open(n.value[0])
    ensures Cut(n.value, t) != [] ==> LevelOk(Node(n.key, Cut(n.value, t)), buy)
  {
    assert n.value[0] in n.value;
    assert forall e <- n.value[1..] :: e in n.value;
  }

  /** What one turn of a matching loop does to the first level is `Cut` on the flat list. */
  lemma FrontCut(l: Ladder<Order>, buy: bool, t: int)
    requires SideOk(l, buy) && l != [] && LevelOk(l[0], buy) && OpenOk(l[0].value[0]) && 0 < t <= Open(l[0].value[0])
    ensures var q := Cut(l[0].value, t);
            && (q != [] ==> LevelOk(Node(l[0].key, q), buy))
            && Flat(l) != [] && Flat(l)[0] == l[0].value[0]
            && q + Flat(l[1..]) == Cut(Flat(l), t)
  {
    hide Flat, Sorted, Cut, LevelOk;
    CutLevel(l[0], buy, t);
    FlatFront(l, buy);
    FlatCons(l[0], l[1..]);
    assert [l[0]] + l[1..] == l;
    CutConcat(l[0].value, Flat(l[1..]), t);
  }

  lemma CutConcat(q: seq<Order>, rest: seq<Order>, t: int)
    requires q != [] && OpenOk(q[0]) && 0 < t <= Open(q[0])
    ensures Cut(q + rest, t) == Cut(q, t) + rest
  {
    TailConcat(q, rest);
    if t < Open(q[0]) {
      Reassociate([q[0].(filled := q[0].filled + t)], q[1..], rest, []);
    }
  }

  /** The ladder after its first entry gave up t, as the matching loops rewrite it. */
  function AfterTrade(l: Ladder<Order>, buy: bool, t: int): Ladder<Order>
    requires l != [] && l[0].value != [] && OpenOk(l[0].value[0]) && 0 < t <= Open(l[0].value[0])
  {
    var m, rest := l[0].value[0], l[0].value[1..];
    if t < Open(m) then Put(buy, l, l[0].key, [m.(filled := m.filled + t)] + rest)
    else if |rest| == 0 then Drop(l, l[0].key)
    else Put(buy, l, l[0].key, rest)
  }

  /** One turn of a matching loop keeps the side well formed and brings the fill one maker further. */
  lemma LoopTurn(makers: seq<Order>, buy: bool, limit: Int64, qty: int, fills: seq<Fill>, l: Ladder<Order>, remaining: Int64)
    requires SideOk(l, !buy) && l != [] && remaining > 0 && Crosses(buy, limit, l[0].key)
    requires Underway(makers, buy, limit, qty, fills, Flat(l), remaining)
    ensures LevelOk(l[0], !buy) && OpenOk(l[0].value[0]) && l[0].value[0].price == l[0].key
    ensures var m := l[0].value[0];
            var t := Take(m, remaining);
            && 0 < t <= remaining && t <= Open(m)
            && SideOk(AfterTrade(l, !buy, t), !buy)
            && Underway(makers, buy, limit, qty, fills + [Fill(m, t)], Flat(AfterTrade(l, !buy, t)), remaining - t)
            && |Flat(AfterTrade(l, !buy, t))| <= |Flat(l)|
  {
    hide Underway, Fills, Leftover, Traded, Put, Drop, Sorted, Flat;
    FlatFront(l, !buy);
    var m, rest := l[0].value[0], l[0].value[1..];
    var t := Take(m, remaining);
    FrontCut(l, !buy, t);
    FrontRewritten(l, !buy, Cut(l[0].value, t));
    UnderwayStep(makers, buy, limit, qty, fills, Flat(l), remaining, t);
    assert Flat(AfterTrade(l, !buy, t)) == Cut(Flat(l), t);
  }

  /** The loop conditions and the price break stop exactly where the reference stops. */
  lemma LoopEnds(l: Ladder<Order>, buy: bool, limit: Int64, remaining: int)
    requires SideOk(l, !buy) && (remaining <= 0 || l == [] || !Crosses(buy, limit, l[0].key))
    ensures Stops(Flat(l), buy, limit, remaining)
  {
    if l != [] {
      FlatFront(l, !buy);
    }
  }

  // ---- resting, cancelling and summing one side ----

  lemma {:induction false} GetIsLevel(l: Ladder<Order>, key: Int64)
    requires Has(l, key)
    ensures Node(key, Get(l, key)) in l
  {
    if l[0].key != key {
      HasTail(l, key);
      GetIsLevel(l[1..], key);
    }
  }

  /** Queue a copy of an order, with its own quantity and nothing filled, behind its price. */
  method Append(l: Ladder<Order>, buy: bool, order: Order, qty: Int64) returns (r: Ladder<Order>)
    requires SideOk(l, buy) && IsBuy(order.side) == buy && qty > 0
    ensures SideOk(r, buy)
    ensures Flat(r) == Insert(buy, Flat(l), order.(quantity := qty, filled := 0))
  {
    var queue := if Has(l, order.price) then Get(l, order.price) else [];
    var entry := order.(quantity := qty, filled := 0);
    r := Put(buy, l, order.price, queue + [entry]);
    AppendOk(l, buy, entry);
  }

  lemma AppendOk(l: Ladder<Order>, buy: bool, e: Order)
    requires SideOk(l, buy) && IsBuy(e.side) == buy && OpenOk(e)
    ensures var q := if Has(l, e.price) then Get(l, e.price) else [];
            var r := Put(buy, l, e.price, q + [e]);
            SideOk(r, buy) && Flat(r) == Insert(buy, Flat(l), e)
  {
    hide Flat, Put, Get, Has, Keys, Ahead;
    var q := if Has(l, e.price) then Get(l, e.price) else [];
    assert forall i :: 0 <= i < |l| ==> LevelOk(l[i], buy);
    FlatOfAppend(buy, l, e.price, e);
    PutKeepsSorted(buy, l, e.price, q + [e]);
    FlatOk(l, buy);
    if Has(l, e.price) {
      GetIsLevel(l, e.price);
      assert LevelOk(Node(e.price, q), buy);
    }
    assert LevelOk(Node(e.price, q + [e]), buy);
  }

  lemma {:induction false} WithoutConcat(a: seq<Order>, b: seq<Order>, id: string, price: Int64)
    ensures Without(a + b, id, price) == Without(a, id, price) + Without(b, id, price)
  {
    if a == [] {
      assert a + b == b;
    } else {
      assert (a + b)[1..] == a[1..] + b;
      WithoutConcat(a[1..], b, id, price);
      var head := if a[0].id == id && a[0].price == price then [] else [a[0]];
      var x, y := Without(a[1..], id, price), Without(b, id, price);
      assert head + (x + y) == (head + x) + y;
    }
  }

  lemma {:induction false} WithoutElsewhere(os: seq<Order>, id: string, price: Int64)
    requires forall o <- os :: o.price != price
    ensures Without(os, id, price) == os
  {
    if os != [] {
      WithoutElsewhere(os[1..], id, price);
    }
  }

  lemma {:induction false} WithoutMembers(os: seq<Order>, id: string, price: Int64)
    ensures forall o :: o in Without(os, id, price) <==> o in os && !(o.id == id && o.price == price)
  {
    if os != [] {
      WithoutMembers(os[1..], id, price);
    }
  }

  lemma {:induction false} OtherPrices(l: Ladder<Order>, buy: bool, price: Int64)
    requires forall n <- l :: LevelOk(n, buy) && n.key != price
    ensures forall o <- Flat(l) :: o.price != price
  {
    if l != [] {
      assert LevelOk(l[0], buy);
      OtherPrices(l[1..], buy, price);
    }
  }

  lemma RemoveOk(l: Ladder<Order>, buy: bool, price: Int64, id: string)
    requires SideOk(l, buy) && Has(l, price)
    ensures var q := Without(Get(l, price), id, price);
            var r := if |q| == 0 then Drop(l, price) else Put(buy, l, price, q);
            SideOk(r, buy) && Flat(r) == Without(Flat(l), id, price)
  {
    hide Flat, Put, Drop, Get, Has, Without;
    var whole := Get(l, price);
    var q := Without(whole, id, price);
    var before, after := SplitAt(buy, l, price, q);
    assert forall n <- before :: n in l && n.key != price;
    assert forall n <- after :: n in l && n.key != price;
    OtherPrices(before, buy, price);
    OtherPrices(after, buy, price);
    WithoutElsewhere(Flat(before), id, price);
    WithoutElsewhere(Flat(after), id, price);
    WithoutConcat(Flat(before) + whole, Flat(after), id, price);
    WithoutConcat(Flat(before), whole, id, price);
    FlatAround(before, price, whole, after);
    FlatAround(before, price, q, after);
    FlatConcat(before, after);
    PutKeepsSorted(buy, l, price, q);
    DropKeepsSorted(buy, l, price);
    WithoutMembers(whole, id, price);
    assert LevelOk(Node(price, whole), buy);
  }

  method FilterQueue(queue: seq<Order>, price: Int64, id: string) returns (newQueue: seq<Order>)
    requires forall o <- queue :: o.price == price
    ensures newQueue == Without(queue, id, price)
  {
    newQueue := [];
    var i := 0;
    while i < |queue|
      invariant 0 <= i <= |queue|
      invariant newQueue == Without(queue[..i], id, price)
    {
      WithoutConcat(queue[..i], [queue[i]], id, price);
      assert queue[..i + 1] == queue[..i] + [queue[i]];
      if queue[i].id != id {
        newQueue := newQueue + [queue[i]];
      }
      i := i + 1;
    }
    assert queue[..i] == queue;
  }

  /** Take every entry of one order out of the queue at one price. */
  method RemoveFrom(l: Ladder<Order>, buy: bool, price: Int64, id: string) returns (r: Ladder<Order>)
    requires SideOk(l, buy)
    ensures SideOk(r, buy) && Flat(r) == Without(Flat(l), id, price)
  {
    r := l;
    if Has(l, price) {
      RemoveOk(l, buy, price, id);
      GetIsLevel(l, price);
      var queue := Get(l, price);
      assert LevelOk(Node(price, queue), buy);
      var newQueue := FilterQueue(queue, price, id);
      if |newQueue| == 0 {
        r := Drop(l, price);
      } else {
        r := Put(buy, l, price, newQueue);
      }
    } else {
      OtherPrices(l, buy, price);
      WithoutElsewhere(Flat(l), id, price);
    }
  }

  lemma {:induction false} RunOfLevel(q: seq<Order>, rest: seq<Order>)
    requires q != [] && (forall o <- q :: o.price == q[0].price) && (rest != [] ==> rest[0].price != q[0].price)
    ensures RunLength(q + rest) == |q|
  {
    var os := q + rest;
    if |q| > 1 {
      assert os[1..] == q[1..] + rest;
      RunOfLevel(q[1..], rest);
    }
  }

  /** The depth of a side begins with its first level. */
  lemma DepthOfLevel(l: Ladder<Order>, buy: bool, levels: int)
    requires SideOk(l, buy) && l != [] && levels > 0
    ensures Depth(Flat(l), levels) ==
            [DepthLevel(l[0].key, Wrap64(OpenSum(l[0].value)))] + Depth(Flat(l[1..]), levels - 1)
  {
    var q, rest := l[0].value, Flat(l[1..]);
    assert LevelOk(l[0], buy);
    if l[1..] != [] {
      FlatFront(l[1..], buy);
    }
    RunOfLevel(q, rest);
    assert (q + rest)[..|q|] == q && (q + rest)[|q|..] == rest;
  }

  /** The open quantity of one queue, accumulated in int64. */
  method QueueTotal(queue: seq<Order>) returns (totalQty: Int64)
    ensures totalQty == Wrap64(OpenSum(queue))
  {
    totalQty := 0;
    var j := 0;
    while j < |queue|
      invariant 0 <= j <= |queue|
      invariant totalQty == Wrap64(OpenSum(queue[..j]))
    {
      assert queue[..j + 1][..j] == queue[..j];
      Wrap64Absorbs(OpenSum(queue[..j]), Open(queue[j]));
      totalQty := Wrap64(totalQty + (queue[j].quantity - queue[j].filled));
      j := j + 1;
    }
    assert queue[..j] == queue;
  }

  method SideDepth(l: Ladder<Order>, buy: bool, levels: int) returns (depth: seq<DepthLevel>)
    requires SideOk(l, buy)
    ensures depth == Depth(Flat(l), levels)
  {
    hide Flat, OpenSum, LevelOk, Depth;
    depth := [];
    var i := 0;
    assert l[0..] == l;
    while i < levels && i < |l|
      invariant 0 <= i <= |l|
      invariant depth + Depth(Flat(l[i..]), levels - i) == Depth(Flat(l), levels)
    {
      DepthOfLevel(l[i..], buy, levels - i);
      assert l[i..][1..] == l[i + 1..];
      var totalQty := QueueTotal(l[i].value);
      depth := depth + [DepthLevel(l[i].key, totalQty)];
      i := i + 1;
    }
    DepthEnds(l[i..], levels - i);
  }

  lemma DepthEnds(l: Ladder<Order>, levels: int)
    requires l == [] || levels <= 0
    ensures Depth(Flat(l), levels) == []
  {
  }

  class OrderBook {
    const symbol: string
    const sequencer: Sequencer
    var bids: Ladder<Order>
    var asks: Ladder<Order>
    var orders: map<string, Order>

    ghost predicate Valid()
      reads this
    {
      SideOk(bids, true) && SideOk(asks, false)
    }

    /** The plain-list book this book stands for. */
    ghost function Abs(): Book
      reads this
    {
      Book(Flat(bids), Flat(asks), orders)
    }

    constructor (symbol: string, sequencer: Sequencer)
      ensures Valid() && Abs() == Book([], [], map[])
      ensures this.symbol == symbol && this.sequencer == sequencer
    {
      this.symbol, this.sequencer := symbol, sequencer;
      bids, asks, orders := [], [], map[];
    }

    method MatchBuyOrder(order: Order, qty: Int64) returns (events: seq<Trade>, remaining: Int64)
      requires SideOk(asks, false) && IsBuy(order.side)
      modifies this`asks, sequencer`localSeq
      ensures SideOk(asks, false)
      ensures var makers := old(Flat(asks));
              && AllOpen(makers)
              && Flat(asks) == Leftover(makers, true, order.price, qty)
              && TradesAre(events, symbol, order, Fills(makers, true, order.price, qty), sequencer.nodeId, old(sequencer.localSeq))
              && remaining == qty - Traded(Fills(makers, true, order.price, qty))
      ensures sequencer.localSeq == LocalAfter(old(sequencer.localSeq), |events|)
    {
      hide Underway, TradesAre, Fills, Leftover, Flat, Traded, Put, Drop, Sorted;
      events, remaining := [], qty;
      ghost var makers, fills, local := Flat(asks), [], sequencer.localSeq;
      FlatOk(asks, false);
      UnderwayStart(makers, true, order.price, qty);
      LocalAfterStep(local, 0);
      TradesStart(symbol, order, sequencer.nodeId, local);
      while remaining > 0 && |asks| > 0
        invariant SideOk(asks, false)
        invariant Underway(makers, true, order.price, qty, fills, Flat(asks), remaining)
        invariant |events| == |fills| && TradesAre(events, symbol, order, fills, sequencer.nodeId, local)
        invariant sequencer.localSeq == LocalAfter(local, |fills|)
        decreases |Flat(asks)|, remaining
      {
        assert LevelOk(asks[0], false);
        var sellPrice := asks[0].key;
        if order.price < sellPrice {
          break;
        }
        var sellQueue := asks[0].value;
        if |sellQueue| == 0 {
          assert false;
          break;
        }
        LoopTurn(makers, true, order.price, qty, fills, asks, remaining);
        ghost var before := asks;
        var seller := sellQueue[0];
        var tradeQty := Min(remaining, seller.quantity - seller.filled);
        if tradeQty <= 0 {
          assert false;
        }
        var number := sequencer.NextGlobalSeq();
        LocalAfterStep(local, |fills|);
        TradesExtend(events, symbol, order, fills, sequencer.nodeId, local, Fill(seller, tradeQty));
        events := events + [Trade(number, TradeId(symbol, order.id, |events|), symbol, order.id, seller.id,
                                  order.user, seller.user, sellPrice, tradeQty, "buy")];
        fills := fills + [Fill(seller, tradeQty)];

        remaining := remaining - tradeQty;
        seller := seller.(filled := seller.filled + tradeQty);
        if seller.filled >= seller.quantity {
          sellQueue := sellQueue[1..];
          if |sellQueue| == 0 {
            asks := Drop(asks, sellPrice);
          } else {
            asks := Put(false, asks, sellPrice, sellQueue);
          }
        } else {
          asks := Put(false, asks, sellPrice, [seller] + sellQueue[1..]);
        }
        assert asks == AfterTrade(before, false, tradeQty);
      }
      LoopEnds(asks, true, order.price, remaining);
      UnderwayEnd(makers, true, order.price, qty, fills, Flat(asks), remaining);
    }

    method MatchSellOrder(order: Order, qty: Int64) returns (events: seq<Trade>, remaining: Int64)
      requires SideOk(bids, true) && !IsBuy(order.side)
      modifies this`bids, sequencer`localSeq
      ensures SideOk(bids, true)
      ensures var makers := old(Flat(bids));
              && AllOpen(makers)
              && Flat(bids) == Leftover(makers, false, order.price, qty)
              && TradesAre(events, symbol, order, Fills(makers, false, order.price, qty), sequencer.nodeId, old(sequencer.localSeq))
              && remaining == qty - Traded(Fills(makers, false, order.price, qty))
      ensures sequencer.localSeq == LocalAfter(old(sequencer.localSeq), |events|)
    {
      hide Underway, TradesAre, Fills, Leftover, Flat, Traded, Put, Drop, Sorted;
      events, remaining := [], qty;
      ghost var makers, fills, local := Flat(bids), [], sequencer.localSeq;
      FlatOk(bids, true);
      UnderwayStart(makers, false, order.price, qty);
      LocalAfterStep(local, 0);
      TradesStart(symbol, order, sequencer.nodeId, local);
      while remaining > 0 && |bids| > 0
        invariant SideOk(bids, true)
        invariant Underway(makers, false, order.price, qty, fills, Flat(bids), remaining)
        invariant |events| == |fills| && TradesAre(events, symbol, order, fills, sequencer.nodeId, local)
        invariant sequencer.localSeq == LocalAfter(local, |fills|)
        decreases |Flat(bids)|, remaining
      {
        assert LevelOk(bids[0], true);
        var buyPrice := bids[0].key;
        if order.price > buyPrice {
          break;
        }
        var buyQueue := bids[0].value;
        if |buyQueue| == 0 {
          assert false;
          break;
        }
        LoopTurn(makers, false, order.price, qty, fills, bids, remaining);
        ghost var before := bids;
        var buyer := buyQueue[0];
        var tradeQty := Min(remaining, buyer.quantity - buyer.filled);
        if tradeQty <= 0 {
          assert false;
        }
        var number := sequencer.NextGlobalSeq();
        LocalAfterStep(local, |fills|);
        TradesExtend(events, symbol, order, fills, sequencer.nodeId, local, Fill(buyer, tradeQty));
        events := events + [Trade(number, TradeId(symbol, order.id, |events|), symbol, order.id, buyer.id,
                                  order.user, buyer.user, buyPrice, tradeQty, "sell")];
        fills := fills + [Fill(buyer, tradeQty)];

        remaining := remaining - tradeQty;
        buyer := buyer.(filled := buyer.filled + tradeQty);
        if buyer.filled >= buyer.quantity {
          buyQueue := buyQueue[1..];
          if |buyQueue| == 0 {
            bids := Drop(bids, buyPrice);
          } else {
            bids := Put(true, bids, buyPrice, buyQueue);
          }
        } else {
          bids := Put(true, bids, buyPrice, [buyer] + buyQueue[1..]);
        }
        assert bids == AfterTrade(before, true, tradeQty);
      }
      LoopEnds(bids, false, order.price, remaining);
      UnderwayEnd(makers, false, order.price, qty, fills, Flat(bids), remaining);
    }

    method AddOrderToBook(order: Order, qty: Int64)
      requires Valid() && qty > 0
      modifies this`bids, this`asks
      ensures Valid() && Abs() == Rested(old(Abs()), order, qty)
    {
      if order.side == "buy" {
        bids := Append(bids, true, order, qty);
      } else {
        asks := Append(asks, false, order, qty);
      }
    }

    /** Every order is accepted, whatever its side, price, quantity or id. */
    method MatchOrder(order: Order) returns (events: seq<Trade>, remaining: Int64)
      requires Valid()
      modifies this, sequencer`localSeq
      ensures Valid() && BookOpen(old(Abs()))
      ensures TradesAre(events, symbol, order, FillsOf(old(Abs()), order), sequencer.nodeId, old(sequencer.localSeq))
      ensures EventsTell(events, order, if order.side == "buy" then old(Abs()).asks else old(Abs()).bids)
      ensures sequencer.localSeq == LocalAfter(old(sequencer.localSeq), |events|)
      ensures remaining == RemainingOf(old(Abs()), order)
      ensures Abs() == Submitted(old(Abs()), order)
    {
      hide Fills, Leftover, Traded, Flat, Sorted, LevelOk, TradeOf;
      FlatOk(bids, true);
      FlatOk(asks, false);
      ghost var before, local := Abs(), sequencer.localSeq;
      if order.side == "buy" {
        events, remaining := MatchBuyOrder(order, order.quantity);
      } else {
        events, remaining := MatchSellOrder(order, order.quantity);
      }
      assert Abs() == AfterFills(before, order);
      if remaining > 0 {
        AddOrderToBook(order, remaining);
      }
      orders := orders[order.id := order];
      EventsTellFills(events, symbol, before, order, sequencer.nodeId, local);
    }

    method CancelOrder(id: string) returns (ok: bool)
      requires Valid()
      modifies this
      ensures Valid() && ok == CancelAccepted(old(Abs()), id) && Abs() == Cancelled(old(Abs()), id)
    {
      if id !in orders {
        return false;
      }
      var order := orders[id];
      if order.filled > 0 {
        return false;
      }
      if order.side == "buy" {
        bids := RemoveFrom(bids, true, order.price, id);
      } else {
        asks := RemoveFrom(asks, false, order.price, id);
      }
      orders := orders - {id};
      return true;
    }

    method GetDepth(levels: int) returns (bidDepth: seq<DepthLevel>, askDepth: seq<DepthLevel>)
      requires Valid()
      ensures bidDepth == Depth(Abs().bids, levels) && askDepth == Depth(Abs().asks, levels)
    {
      bidDepth := SideDepth(bids, true, levels);
      askDepth := SideDepth(asks, false, levels);
    }
  }
}
