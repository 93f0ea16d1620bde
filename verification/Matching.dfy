/** What matching means on plain lists of resting orders: price-time greedy fills, stable insertion,
    cancellation and depth (the reference for biz/service/orderbook.go). */
module Matching {
  import opened Decimal
  import opened Int64s
  import opened Ladders
  import opened Sequencing

  /** The fields of `OrderBookEntry` that matching reads. Any side other than "buy" sells. */
  datatype Order = Order(id: string, user: string, side: string, price: Int64, quantity: Int64, filled: Int64)

  predicate IsBuy(side: string) {
    side == "buy"
  }

  function Open(o: Order): int {
    o.quantity - o.filled
  }

  /** A buyer at this limit takes asks at or below it, a seller bids at or above it. */
  predicate Crosses(buy: bool, limit: Int64, makerPrice: Int64) {
    if buy then makerPrice <= limit else limit <= makerPrice
  }

  datatype Fill = Fill(maker: Order, qty: int)

  function Traded(fills: seq<Fill>): int {
    if fills == [] then 0 else Traded(fills[..|fills| - 1]) + fills[|fills| - 1].qty
  }

  predicate Stops(makers: seq<Order>, buy: bool, limit: Int64, qty: int) {
    qty <= 0 || makers == [] || !Crosses(buy, limit, makers[0].price)
  }

  function Take(maker: Order, qty: int): int {
    if qty < Open(maker) then qty else Open(maker)
  }

  /** Take from the makers in order until the quantity, the makers or the price limit runs out. */
  function Fills(makers: seq<Order>, buy: bool, limit: Int64, qty: int): seq<Fill> {
    if Stops(makers, buy, limit, qty) then []
    else
      var t := Take(makers[0], qty);
      [Fill(makers[0], t)] + Fills(makers[1..], buy, limit, qty - t)
  }

  predicate OpenOk(o: Order) {
    0 <= o.filled < o.quantity
  }

  predicate AllOpen(makers: seq<Order>) {
    forall i :: 0 <= i < |makers| ==> OpenOk(makers[i])
  }

  /** The makers after those fills: the exhausted ones gone, at most the first of the rest cut. */
  function Leftover(makers: seq<Order>, buy: bool, limit: Int64, qty: int): seq<Order>
    requires AllOpen(makers)
  {
    if Stops(makers, buy, limit, qty) then makers
    else
      var m, t := makers[0], Take(makers[0], qty);
      if t < Open(m) then [m.(filled := m.filled + t)] + makers[1..]
      else Leftover(makers[1..], buy, limit, qty - t)
  }

  /** The makers after the first of them gave up t. */
  function Cut(makers: seq<Order>, t: int): seq<Order>
    requires makers != [] && OpenOk(makers[0]) && 0 < t <= Open(makers[0])
  {
    var m := makers[0];
    if t < Open(m) then [m.(filled := m.filled + t)] + makers[1..] else makers[1..]
  }

  lemma CutOpen(makers: seq<Order>, t: int)
    requires AllOpen(makers) && makers != [] && OpenOk(makers[0]) && 0 < t <= Open(makers[0])
    ensures AllOpen(Cut(makers, t))
  {
  }

  function Prices(os: seq<Order>): seq<Int64> {
    seq(|os|, i requires 0 <= i < |os| => os[i].price)
  }

  /** Behind everything not worse, ahead of everything worse. */
  function Insert(desc: bool, os: seq<Order>, o: Order): seq<Order> {
    var k := Ahead(desc, Prices(os), o.price);
    os[..k] + [o] + os[k..]
  }

  /** The plain-list book: both sides best first, and the record of submitted orders. */
  datatype Book = Book(bids: seq<Order>, asks: seq<Order>, orders: map<string, Order>)

  function Makers(b: Book, buy: bool): seq<Order> {
    if buy then b.asks else b.bids
  }

  predicate BookOpen(b: Book) {
    AllOpen(b.bids) && AllOpen(b.asks)
  }

  function FillsOf(b: Book, o: Order): seq<Fill> {
    Fills(Makers(b, IsBuy(o.side)), IsBuy(o.side), o.price, o.quantity)
  }

  function RemainingOf(b: Book, o: Order): int {
    o.quantity - Traded(FillsOf(b, o))
  }

  /** The book with the fills of an order taken out of the opposite side. */
  function AfterFills(b: Book, o: Order): Book
    requires BookOpen(b)
  {
    if IsBuy(o.side) then b.(asks := Leftover(b.asks, true, o.price, o.quantity))
    else b.(bids := Leftover(b.bids, false, o.price, o.quantity))
  }

  /** Rest what remains of an order on its own side, as a copy with its own quantity and no fills. */
  function Rested(b: Book, o: Order, qty: Int64): Book {
    var r := o.(quantity := qty, filled := 0);
    if IsBuy(o.side) then b.(bids := Insert(true, b.bids, r)) else b.(asks := Insert(false, b.asks, r))
  }

  lemma {:induction false} FillsBounded(makers: seq<Order>, buy: bool, limit: Int64, qty: int)
    requires AllOpen(makers)
    ensures 0 <= Traded(Fills(makers, buy, limit, qty)) <= if qty > 0 then qty else 0
    ensures forall f <- Fills(makers, buy, limit, qty) :: f.qty > 0
  {
    if !Stops(makers, buy, limit, qty) {
      var t := Take(makers[0], qty);
      FillsBounded(makers[1..], buy, limit, qty - t);
      TradedCons(Fill(makers[0], t), Fills(makers[1..], buy, limit, qty - t));
    }
  }

  lemma {:induction false} TradedCons(f: Fill, fs: seq<Fill>)
    ensures Traded([f] + fs) == f.qty + Traded(fs)
  {
    if fs == [] {
      assert Traded([f]) == Traded([f][..0]) + f.qty;
    } else {
      var s := [f] + fs;
      assert s[..|s| - 1] == [f] + fs[..|fs| - 1];
      TradedCons(f, fs[..|fs| - 1]);
    }
  }

  /** `MatchOrder` on the plain-list book. */
  function Submitted(b: Book, o: Order): Book
    requires BookOpen(b)
  {
    var remaining := RemainingOf(b, o);
    FillsBounded(Makers(b, IsBuy(o.side)), IsBuy(o.side), o.price, o.quantity);
    var c := AfterFills(b, o);
    var d := if remaining > 0 then Rested(c, o, remaining) else c;
    d.(orders := d.orders[o.id := o])
  }

  datatype Trade = Trade(number: nat, tradeId: string, symbol: string, takerOrder: string, makerOrder: string,
                         takerUser: string, makerUser: string, price: Int64, quantity: Int64, takerSide: string)

  function TradeId(symbol: string, orderId: string, index: nat): string {
    symbol + "-" + orderId + "-" + Dec(index)
  }

  /** The event for the fill at position i of an order; numbers are drawn one per fill. */
  function TradeOf(symbol: string, o: Order, f: Fill, i: nat, node: nat, local: nat): Trade
    requires IsInt64(f.qty)
  {
    Trade(Pack(node, LocalAfter(local, i + 1)), TradeId(symbol, o.id, i), symbol, o.id, f.maker.id,
          o.user, f.maker.user, f.maker.price, f.qty, if IsBuy(o.side) then "buy" else "sell")
  }

  ghost predicate TradesAre(trades: seq<Trade>, symbol: string, o: Order, fills: seq<Fill>, node: nat, local: nat) {
    && |trades| == |fills|
    && forall i :: 0 <= i < |fills| ==>
         IsInt64(fills[i].qty) && trades[i] == TradeOf(symbol, o, fills[i], i, node, local)
  }

  lemma TradesStart(symbol: string, o: Order, node: nat, local: Uint64)
    ensures TradesAre([], symbol, o, [], node, local)
  {
  }

  lemma TradesExtend(trades: seq<Trade>, symbol: string, o: Order, fills: seq<Fill>, node: nat, local: Uint64, f: Fill)
    requires TradesAre(trades, symbol, o, fills, node, local) && IsInt64(f.qty)
    ensures TradesAre(trades + [TradeOf(symbol, o, f, |fills|, node, local)], symbol, o, fills + [f], node, local)
  {
  }

  // ---- the matching loop, seen on values ----

  /** Filling `now` with what remains, after `fills`, is filling `makers` with all of `qty`. */
  ghost predicate Underway(makers: seq<Order>, buy: bool, limit: Int64, qty: int,
                           fills: seq<Fill>, now: seq<Order>, remaining: int)
  {
    && AllOpen(makers) && AllOpen(now)
    && fills + Fills(now, buy, limit, remaining) == Fills(makers, buy, limit, qty)
    && Leftover(now, buy, limit, remaining) == Leftover(makers, buy, limit, qty)
    && remaining == qty - Traded(fills)
    && (forall f <- fills :: IsInt64(f.qty))
  }

  lemma UnderwayStart(makers: seq<Order>, buy: bool, limit: Int64, qty: int)
    requires AllOpen(makers)
    ensures Underway(makers, buy, limit, qty, [], makers, qty)
  {
  }

  lemma UnderwayStep(makers: seq<Order>, buy: bool, limit: Int64, qty: int, fills: seq<Fill>, now: seq<Order>, remaining: Int64, t: int)
    requires Underway(makers, buy, limit, qty, fills, now, remaining) && !Stops(now, buy, limit, remaining)
    requires OpenOk(now[0]) && t == Take(now[0], remaining)
    ensures 0 < t <= remaining && t <= Open(now[0])
    ensures Underway(makers, buy, limit, qty, fills + [Fill(now[0], t)], Cut(now, t), remaining - t)
  {
    var f, rest := Fill(now[0], t), Fills(Cut(now, t), buy, limit, remaining - t);
    assert Fills(now, buy, limit, remaining) == [f] + rest;
    assert fills + ([f] + rest) == fills + [f] + rest;
    assert (fills + [f])[..|fills|] == fills;
    CutOpen(now, t);
  }

  lemma UnderwayEnd(makers: seq<Order>, buy: bool, limit: Int64, qty: int, fills: seq<Fill>, now: seq<Order>, remaining: int)
    requires Underway(makers, buy, limit, qty, fills, now, remaining) && Stops(now, buy, limit, remaining)
    ensures fills == Fills(makers, buy, limit, qty) && now == Leftover(makers, buy, limit, qty)
    ensures remaining == qty - Traded(Fills(makers, buy, limit, qty))
  {
  }

  // ---- cancel ----

  /** Everything except the entries of one order at one price. */
  function Without(os: seq<Order>, id: string, price: Int64): seq<Order> {
    if os == [] then []
    else (if os[0].id == id && os[0].price == price then [] else [os[0]]) + Without(os[1..], id, price)
  }

  /** The recorded order is what decides: unknown ids and recorded fills refuse. */
  predicate CancelAccepted(b: Book, id: string) {
    id in b.orders && b.orders[id].filled <= 0
  }

  function Cancelled(b: Book, id: string): Book {
    if !CancelAccepted(b, id) then b
    else
      var o := b.orders[id];
      var c := if IsBuy(o.side) then b.(bids := Without(b.bids, id, o.price))
               else b.(asks := Without(b.asks, id, o.price));
      c.(orders := c.orders - {id})
  }

  // ---- depth ----

  datatype DepthLevel = DepthLevel(price: Int64, quantity: Int64)

  function OpenSum(os: seq<Order>): int {
    if os == [] then 0 else OpenSum(os[..|os| - 1]) + Open(os[|os| - 1])
  }

  /** Length of the leading run of orders at the first order's price. */
  function RunLength(os: seq<Order>): (n: nat)
    ensures n <= |os| && (os != [] ==> n > 0)
  {
    if os == [] then 0
    else if |os| > 1 && os[1].price == os[0].price then 1 + RunLength(os[1..])
    else 1
  }

  /** The first `levels` prices with the open quantity summed over each, in int64. */
  function Depth(os: seq<Order>, levels: int): seq<DepthLevel>
    decreases |os|
  {
    if os == [] || levels <= 0 then []
    else
      var n := RunLength(os);
      [DepthLevel(os[0].price, Wrap64(OpenSum(os[..n])))] + Depth(os[n..], levels - 1)
  }
}
