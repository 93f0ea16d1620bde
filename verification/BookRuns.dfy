/** Properties of the plain-list book over whole runs of submissions and cancellations. The book object is
    tied to it call by call, so they are properties of the order book (biz/service/orderbook.go). */
module BookRuns {
  import opened Options
  import opened Decimal
  import opened Int64s
  import opened Ladders
  import opened Matching
  import opened Sequencing

  // ---- what the greedy fill is ----

  lemma {:induction false} OpenSumCons(o: Order, os: seq<Order>)
    ensures OpenSum([o] + os) == Open(o) + OpenSum(os)
  {
    if os == [] {
      assert OpenSum([o]) == OpenSum([o][..0]) + Open(o);
    } else {
      var s := [o] + os;
      assert s[..|s| - 1] == [o] + os[..|os| - 1];
      OpenSumCons(o, os[..|os| - 1]);
    }
  }

  lemma {:induction false} OpenSumConcat(a: seq<Order>, b: seq<Order>)
    ensures OpenSum(a + b) == OpenSum(a) + OpenSum(b)
  {
    if b == [] {
      assert a + b == a;
    } else {
      assert (a + b)[..|a + b| - 1] == a + b[..|b| - 1];
      OpenSumConcat(a, b[..|b| - 1]);
    }
  }

  ghost predicate FillAt(makers: seq<Order>, buy: bool, limit: Int64, qty: int, fs: seq<Fill>, i: nat)
    requires i < |fs| <= |makers|
  {
    && fs[i].maker == makers[i]
    && Crosses(buy, limit, makers[i].price)
    && OpenSum(makers[..i]) < qty
    && fs[i].qty == Take(makers[i], qty - OpenSum(makers[..i]))
  }

  /** Closed form: the i-th fill is with the i-th maker, at its price within the limit, for what is left
      after all makers before it gave everything; and it stops only when the quantity is used up or the
      next maker is beyond the limit. */
  lemma {:induction false} FillsClosedForm(makers: seq<Order>, buy: bool, limit: Int64, qty: int)
    requires AllOpen(makers)
    ensures var fs := Fills(makers, buy, limit, qty);
            && |fs| <= |makers|
            && (forall i :: 0 <= i < |fs| ==> FillAt(makers, buy, limit, qty, fs, i))
            && (|fs| == |makers| || qty <= OpenSum(makers[..|fs|]) || !Crosses(buy, limit, makers[|fs|].price))
  {
    hide OpenSum;
    OpenSumNone();
    assert makers[..0] == [];
    if !Stops(makers, buy, limit, qty) {
      var m, rest, t := makers[0], makers[1..], Take(makers[0], qty);
      assert OpenOk(m);
      FillsClosedForm(rest, buy, limit, qty - t);
      var fs, gs := Fills(makers, buy, limit, qty), Fills(rest, buy, limit, qty - t);
      assert fs == [Fill(m, t)] + gs;
      forall i | 0 <= i <= |rest| ensures OpenSum(makers[..i + 1]) == Open(m) + OpenSum(rest[..i]) {
        assert makers[..i + 1] == [m] + rest[..i];
        OpenSumCons(m, rest[..i]);
      }
      if t < Open(m) {
        assert gs == [] && OpenSum(rest[..0]) >= qty - Open(m) by { assert rest[..0] == []; }
      } else {
        forall i | 0 < i < |fs| ensures FillAt(makers, buy, limit, qty, fs, i) {
          assert FillAt(rest, buy, limit, qty - t, gs, i - 1);
        }
      }
    }
  }

  lemma OpenSumNone()
    ensures OpenSum([]) == 0
  {
  }

  /** What an event of an order says: it names the i-th best maker and the taker, trades at the maker's price,
      within the taker's limit, and for the lesser of what that maker had open and what the makers before it
      left of the order. */
  lemma EventTellsFill(events: seq<Trade>, symbol: string, b: Book, o: Order, node: nat, local: nat, i: nat)
    requires BookOpen(b) && TradesAre(events, symbol, o, FillsOf(b, o), node, local) && i < |events|
    ensures var makers := if o.side == "buy" then b.asks else b.bids;
            && i < |makers|
            && events[i].symbol == symbol
            && events[i].price == makers[i].price
            && events[i].makerOrder == makers[i].id && events[i].makerUser == makers[i].user
            && events[i].takerOrder == o.id && events[i].takerUser == o.user
            && events[i].takerSide == (if o.side == "buy" then "buy" else "sell")
            && (if o.side == "buy" then events[i].price <= o.price else events[i].price >= o.price)
            && var left, open := o.quantity - OpenSum(makers[..i]), makers[i].quantity - makers[i].filled;
               events[i].quantity == (if left < open then left else open) > 0
  {
    hide OpenSum, Fills, TradeId, Pack;
    var buy := IsBuy(o.side);
    var makers := Makers(b, buy);
    FillsClosedForm(makers, buy, o.price, o.quantity);
    assert FillAt(makers, buy, o.price, o.quantity, FillsOf(b, o), i);
    assert OpenOk(makers[i]);
  }

  /** The i-th event names the i-th best maker and the taker, at the maker's price and within the limit. */
  ghost predicate EventsTell(events: seq<Trade>, o: Order, makers: seq<Order>) {
    |events| <= |makers| &&
    forall i :: 0 <= i < |events| ==>
      && events[i].price == makers[i].price
      && events[i].makerOrder == makers[i].id && events[i].makerUser == makers[i].user
      && events[i].takerOrder == o.id && events[i].takerUser == o.user
      && events[i].takerSide == (if o.side == "buy" then "buy" else "sell")
      && (if o.side == "buy" then events[i].price <= o.price else events[i].price >= o.price)
  }

  lemma EventsTellFills(events: seq<Trade>, symbol: string, b: Book, o: Order, node: nat, local: nat)
    requires BookOpen(b) && TradesAre(events, symbol, o, FillsOf(b, o), node, local)
    ensures EventsTell(events, o, if o.side == "buy" then b.asks else b.bids)
  {
    hide OpenSum, TradesAre;
    var makers := if o.side == "buy" then b.asks else b.bids;
    if events != [] {
      EventTellsFill(events, symbol, b, o, node, local, |events| - 1);
    }
    forall i | 0 <= i < |events|
      ensures && events[i].price == makers[i].price
              && events[i].makerOrder == makers[i].id && events[i].makerUser == makers[i].user
              && events[i].takerOrder == o.id && events[i].takerUser == o.user
              && events[i].takerSide == (if o.side == "buy" then "buy" else "sell")
              && (if o.side == "buy" then events[i].price <= o.price else events[i].price >= o.price)
    {
      EventTellsFill(events, symbol, b, o, node, local, i);
    }
  }

  /** Every maker that traded is used up, except possibly the last one. */
  lemma OnlyLastMakerCut(makers: seq<Order>, buy: bool, limit: Int64, qty: int, i: nat)
    requires AllOpen(makers) && i + 1 < |Fills(makers, buy, limit, qty)|
    ensures i < |makers| && Fills(makers, buy, limit, qty)[i].qty == Open(makers[i])
  {
    FillsClosedForm(makers, buy, limit, qty);
    var fs := Fills(makers, buy, limit, qty);
    assert FillAt(makers, buy, limit, qty, fs, i) && FillAt(makers, buy, limit, qty, fs, i + 1);
    assert makers[..i + 1][..i] == makers[..i];
  }

  /** Same order, possibly filled further. */
  predicate SameBut(a: Order, b: Order) {
    a == b.(filled := a.filled)
  }

  /** What is left of the makers is a tail of them with at most its first entry cut. */
  ghost predicate TailOf(l: seq<Order>, makers: seq<Order>) {
    && |l| <= |makers|
    && (forall i :: 0 <= i < |l| ==> SameBut(l[i], makers[|makers| - |l| + i]))
    && (forall i :: 0 < i < |l| ==> l[i] == makers[|makers| - |l| + i])
  }

  lemma {:induction false} LeftoverIsTail(makers: seq<Order>, buy: bool, limit: Int64, qty: int)
    requires AllOpen(makers)
    ensures AllOpen(Leftover(makers, buy, limit, qty)) && TailOf(Leftover(makers, buy, limit, qty), makers)
  {
    hide TailOf;
    if !Stops(makers, buy, limit, qty) {
      var t := Take(makers[0], qty);
      assert OpenOk(makers[0]);
      if t < Open(makers[0]) {
        CutOpen(makers, t);
        CutIsTail(makers, t);
      } else {
        LeftoverIsTail(makers[1..], buy, limit, qty - t);
        TailOfTail(Leftover(makers[1..], buy, limit, qty - t), makers);
      }
    } else {
      TailOfTail(makers, makers);
    }
  }

  lemma CutIsTail(makers: seq<Order>, t: int)
    requires makers != [] && OpenOk(makers[0]) && 0 < t < Open(makers[0])
    ensures TailOf(Cut(makers, t), makers)
  {
  }

  lemma TailOfTail(l: seq<Order>, makers: seq<Order>)
    requires makers == l || (makers != [] && TailOf(l, makers[1..]))
    ensures TailOf(l, makers)
  {
  }

  /** The open quantity the makers lose is what was traded. */
  lemma {:induction false} LeftoverOpenSum(makers: seq<Order>, buy: bool, limit: Int64, qty: int)
    requires AllOpen(makers)
    ensures OpenSum(Leftover(makers, buy, limit, qty)) == OpenSum(makers) - Traded(Fills(makers, buy, limit, qty))
  {
    hide OpenSum, Traded;
    if Stops(makers, buy, limit, qty) {
      TradedNone();
    } else {
      var m, rest, t := makers[0], makers[1..], Take(makers[0], qty);
      assert OpenOk(m) && makers == [m] + rest;
      OpenSumCons(m, rest);
      TradedCons(Fill(m, t), Fills(rest, buy, limit, qty - t));
      if t < Open(m) {
        OpenSumCons(m.(filled := m.filled + t), rest);
        assert Stops(rest, buy, limit, qty - t);
        TradedNone();
      } else {
        LeftoverOpenSum(rest, buy, limit, qty - t);
      }
    }
  }

  lemma TradedNone()
    ensures Traded([]) == 0
  {
  }

  /** If the taker has some left, nothing left of the makers crosses its limit. */
  lemma {:induction false} LeftoverBeyondLimit(makers: seq<Order>, buy: bool, limit: Int64, qty: int)
    requires AllOpen(makers) && qty > Traded(Fills(makers, buy, limit, qty))
    ensures var l := Leftover(makers, buy, limit, qty); l == [] || !Crosses(buy, limit, l[0].price)
  {
    hide Traded;
    if Stops(makers, buy, limit, qty) {
      TradedNone();
    } else {
      var m, rest, t := makers[0], makers[1..], Take(makers[0], qty);
      assert OpenOk(m);
      TradedCons(Fill(m, t), Fills(rest, buy, limit, qty - t));
      if t < Open(m) {
        assert Stops(rest, buy, limit, qty - t);
        TradedNone();
      } else {
        LeftoverBeyondLimit(rest, buy, limit, qty - t);
      }
    }
  }

  // ---- the invariant of reachable books ----

  ghost predicate BestFirst(desc: bool, os: seq<Order>) {
    forall i, j :: 0 <= i < j < |os| ==> !Before(desc, os[j].price, os[i].price)
  }

  ghost predicate DistinctIds(os: seq<Order>) {
    forall i, j :: 0 <= i < j < |os| ==> os[i].id != os[j].id
  }

  /** The entry is recorded under its id with the same user, side and price. */
  predicate Indexed(orders: map<string, Order>, o: Order) {
    o.id in orders && orders[o.id].user == o.user && orders[o.id].side == o.side && orders[o.id].price == o.price
  }

  ghost predicate SideInv(os: seq<Order>, buy: bool, orders: map<string, Order>) {
    && AllOpen(os) && BestFirst(buy, os) && DistinctIds(os)
    && (forall i :: 0 <= i < |os| ==> IsBuy(os[i].side) == buy && Indexed(orders, os[i]))
  }

  /** Best bid strictly below best ask: every bid is below every ask. */
  ghost predicate Uncrossed(bids: seq<Order>, asks: seq<Order>) {
    forall i, j :: 0 <= i < |bids| && 0 <= j < |asks| ==> bids[i].price < asks[j].price
  }

  ghost predicate Inv(b: Book) {
    SideInv(b.bids, true, b.orders) && SideInv(b.asks, false, b.orders) && Uncrossed(b.bids, b.asks)
  }

  /** An id rests on one side only, because its record has one side. */
  lemma NoIdOnBothSides(b: Book, i: nat, j: nat)
    requires Inv(b) && i < |b.bids| && j < |b.asks|
    ensures b.bids[i].id != b.asks[j].id
  {
    assert Indexed(b.orders, b.bids[i]) && Indexed(b.orders, b.asks[j]);
  }

  /** Not resting: what `Submitted` needs of a fresh id. */
  ghost predicate NotResting(os: seq<Order>, id: string) {
    forall i :: 0 <= i < |os| ==> os[i].id != id
  }

  lemma LeftoverKeepsSide(makers: seq<Order>, buy: bool, orders: map<string, Order>, taker: Order)
    requires SideInv(makers, buy, orders)
    ensures SideInv(Leftover(makers, !buy, taker.price, taker.quantity), buy, orders)
  {
    LeftoverIsTail(makers, !buy, taker.price, taker.quantity);
  }

  lemma RecordKeepsSide(os: seq<Order>, buy: bool, orders: map<string, Order>, o: Order)
    requires SideInv(os, buy, orders) && NotResting(os, o.id)
    ensures SideInv(os, buy, orders[o.id := o])
  {
    forall i | 0 <= i < |os| ensures Indexed(orders[o.id := o], os[i]) {
      assert Indexed(orders, os[i]);
    }
  }

  lemma {:induction false} AheadSplits(desc: bool, prices: seq<Int64>, p: Int64)
    requires forall i, j :: 0 <= i < j < |prices| ==> !Before(desc, prices[j], prices[i])
    ensures var k := Ahead(desc, prices, p);
            (forall i :: 0 <= i < k ==> !Before(desc, p, prices[i])) && (forall i :: k <= i < |prices| ==> Before(desc, p, prices[i]))
  {
    if prices != [] && !Before(desc, p, prices[0]) {
      AheadSplits(desc, prices[1..], p);
    }
  }

  lemma InsertSum(desc: bool, os: seq<Order>, o: Order)
    ensures OpenSum(Insert(desc, os, o)) == OpenSum(os) + Open(o)
  {
    hide Ahead;
    var k := Ahead(desc, Prices(os), o.price);
    assert os == os[..k] + os[k..];
    OpenSumConcat(os[..k], os[k..]);
    OpenSumConcat(os[..k] + [o], os[k..]);
    OpenSumConcat(os[..k], [o]);
    OpenSumCons(o, []);
    assert [o] + [] == [o];
  }

  lemma InsertBestFirst(desc: bool, os: seq<Order>, o: Order)
    requires BestFirst(desc, os)
    ensures BestFirst(desc, Insert(desc, os, o))
  {
    hide Ahead;
    AheadSplits(desc, Prices(os), o.price);
    assert forall i :: 0 <= i < |os| ==> Prices(os)[i] == os[i].price;
  }

  lemma InsertMembers(desc: bool, os: seq<Order>, o: Order)
    ensures var k := Ahead(desc, Prices(os), o.price);
            var r := Insert(desc, os, o);
            && k <= |os| && |r| == |os| + 1
            && (forall i :: 0 <= i < k ==> r[i] == os[i]) && r[k] == o
            && (forall i :: k < i < |r| ==> r[i] == os[i - 1])
  {
  }

  /** Inserting behind everything not worse keeps best-first order: the newcomer has the lowest priority
      among its own price. */
  lemma InsertKeepsSide(os: seq<Order>, buy: bool, orders: map<string, Order>, o: Order)
    requires SideInv(os, buy, orders) && NotResting(os, o.id) && OpenOk(o) && IsBuy(o.side) == buy && Indexed(orders, o)
    ensures SideInv(Insert(buy, os, o), buy, orders)
    ensures forall i :: 0 <= i < |Insert(buy, os, o)| ==> Insert(buy, os, o)[i] == o || Insert(buy, os, o)[i] in os
  {
    hide Insert, BestFirst;
    InsertBestFirst(buy, os, o);
    InsertMembers(buy, os, o);
  }

  lemma SubmitKeepsInv(b: Book, o: Order)
    requires Inv(b) && NotResting(b.bids, o.id) && NotResting(b.asks, o.id)
    ensures BookOpen(b) && Inv(Submitted(b, o))
  {
    hide Fills, Leftover, Traded, Insert, SideInv;
    var buy := IsBuy(o.side);
    SidesOpen(b);
    var orders := b.orders[o.id := o];
    var makers := Makers(b, buy);
    FillsBounded(makers, buy, o.price, o.quantity);
    var c := AfterFills(b, o);
    LeftoverIsTail(makers, buy, o.price, o.quantity);
    LeftoverKeepsSide(makers, !buy, b.orders, o);
    TailKeepsUncrossed(b.bids, c.bids, b.asks, c.asks);
    RecordKeepsSide(c.bids, true, b.orders, o);
    RecordKeepsSide(c.asks, false, b.orders, o);
    var remaining := RemainingOf(b, o);
    if remaining > 0 {
      LeftoverBeyondLimit(makers, buy, o.price, o.quantity);
      RestKeepsUncrossed(c, buy, orders, o.(quantity := remaining, filled := 0));
    }
  }

  lemma SidesOpen(b: Book)
    requires Inv(b)
    ensures BookOpen(b)
  {
  }

  lemma TailKeepsUncrossed(bids: seq<Order>, bids': seq<Order>, asks: seq<Order>, asks': seq<Order>)
    requires Uncrossed(bids, asks) && (bids' == bids || TailOf(bids', bids)) && (asks' == asks || TailOf(asks', asks))
    ensures Uncrossed(bids', asks')
  {
  }

  /** The rest of a taker goes where nothing crosses it any more. */
  lemma RestKeepsUncrossed(c: Book, buy: bool, orders: map<string, Order>, r: Order)
    requires SideInv(c.bids, true, orders) && SideInv(c.asks, false, orders) && Uncrossed(c.bids, c.asks)
    requires NotResting(c.bids, r.id) && NotResting(c.asks, r.id)
    requires OpenOk(r) && IsBuy(r.side) == buy && Indexed(orders, r)
    requires var m := Makers(c, buy); m == [] || !Crosses(buy, r.price, m[0].price)
    ensures buy ==> SideInv(Insert(true, c.bids, r), true, orders) && Uncrossed(Insert(true, c.bids, r), c.asks)
    ensures !buy ==> SideInv(Insert(false, c.asks, r), false, orders) && Uncrossed(c.bids, Insert(false, c.asks, r))
  {
    if buy {
      InsertKeepsSide(c.bids, true, orders, r);
      forall j | 0 <= j < |c.asks| ensures r.price < c.asks[j].price {
        assert !Before(false, c.asks[j].price, c.asks[0].price);
      }
    } else {
      InsertKeepsSide(c.asks, false, orders, r);
      forall i | 0 <= i < |c.bids| ensures c.bids[i].price < r.price {
        assert !Before(true, c.bids[i].price, c.bids[0].price);
      }
    }
  }

  // ---- cancel removes just the one order ----

  function WithoutId(os: seq<Order>, id: string): seq<Order> {
    if os == [] then [] else (if os[0].id == id then [] else [os[0]]) + WithoutId(os[1..], id)
  }

  /** The open quantity resting under an id. */
  function OpenOf(os: seq<Order>, id: string): int {
    if os == [] then 0 else (if os[0].id == id then Open(os[0]) else 0) + OpenOf(os[1..], id)
  }

  lemma {:induction false} WithoutIdSum(os: seq<Order>, id: string)
    ensures OpenSum(WithoutId(os, id)) == OpenSum(os) - OpenOf(os, id)
    ensures forall o :: o in WithoutId(os, id) <==> o in os && o.id != id
  {
    hide OpenSum;
    OpenSumNone();
    if os != [] {
      var o, rest := os[0], os[1..];
      WithoutIdSum(rest, id);
      assert os == [o] + rest;
      OpenSumCons(o, rest);
      if o.id == id {
        assert WithoutId(os, id) == [] + WithoutId(rest, id) == WithoutId(rest, id);
      } else {
        OpenSumCons(o, WithoutId(rest, id));
      }
    }
  }

  lemma SideTail(os: seq<Order>, buy: bool, orders: map<string, Order>)
    requires SideInv(os, buy, orders) && os != []
    ensures SideInv(os[1..], buy, orders)
    ensures forall o <- os[1..] :: !Before(buy, o.price, os[0].price) && o.id != os[0].id
  {
  }

  lemma SideCons(o: Order, os: seq<Order>, buy: bool, orders: map<string, Order>)
    requires SideInv(os, buy, orders) && OpenOk(o) && IsBuy(o.side) == buy && Indexed(orders, o)
    requires forall x <- os :: !Before(buy, x.price, o.price) && x.id != o.id
    ensures SideInv([o] + os, buy, orders)
  {
  }

  lemma {:induction false} WithoutIdKeepsSide(os: seq<Order>, buy: bool, orders: map<string, Order>, id: string)
    requires SideInv(os, buy, orders)
    ensures SideInv(WithoutId(os, id), buy, orders - {id})
  {
    if os == [] {
    } else {
      var o, r := os[0], WithoutId(os[1..], id);
      assert OpenOk(o) && IsBuy(o.side) == buy && Indexed(orders, o);
      hide SideInv, OpenSum, OpenOf;
      SideTail(os, buy, orders);
      WithoutIdKeepsSide(os[1..], buy, orders, id);
      WithoutIdSum(os[1..], id);
      if o.id == id {
        assert WithoutId(os, id) == [] + r == r;
      } else {
        SideCons(o, r, buy, orders - {id});
      }
    }
  }

  /** Where the entries of an id all have the recorded price, dropping by id and price drops by id. */
  lemma {:induction false} WithoutByPrice(os: seq<Order>, id: string, price: Int64)
    requires forall o <- os :: o.id == id ==> o.price == price
    ensures Without(os, id, price) == WithoutId(os, id)
  {
    if os != [] {
      WithoutByPrice(os[1..], id, price);
    }
  }

  lemma {:induction false} WithoutAbsent(os: seq<Order>, id: string)
    requires NotResting(os, id)
    ensures WithoutId(os, id) == os && OpenOf(os, id) == 0
  {
    if os != [] {
      WithoutAbsent(os[1..], id);
    }
  }

  /** A successful cancel drops the entry of that id, on whichever side it rests, and leaves the order and
      open quantity of all other entries as they were. */
  lemma CancelExact(b: Book, id: string)
    requires Inv(b) && CancelAccepted(b, id)
    ensures Cancelled(b, id) == Book(WithoutId(b.bids, id), WithoutId(b.asks, id), b.orders - {id})
  {
    hide Without, WithoutId;
    var o := b.orders[id];
    forall x <- b.bids | x.id == id ensures x.price == o.price && IsBuy(o.side) {
      assert Indexed(b.orders, x);
    }
    forall x <- b.asks | x.id == id ensures x.price == o.price && !IsBuy(o.side) {
      assert Indexed(b.orders, x);
    }
    if IsBuy(o.side) {
      WithoutByPrice(b.bids, id, o.price);
      WithoutAbsent(b.asks, id);
    } else {
      WithoutByPrice(b.asks, id, o.price);
      WithoutAbsent(b.bids, id);
    }
  }

  lemma CancelKeepsInv(b: Book, id: string)
    requires Inv(b)
    ensures Inv(Cancelled(b, id))
  {
    if CancelAccepted(b, id) {
      hide SideInv, WithoutId, OpenSum, Cancelled;
      CancelExact(b, id);
      WithoutIdKeepsSide(b.bids, true, b.orders, id);
      WithoutIdKeepsSide(b.asks, false, b.orders, id);
      WithoutIdSum(b.bids, id);
      WithoutIdSum(b.asks, id);
      var bids, asks := WithoutId(b.bids, id), WithoutId(b.asks, id);
      forall i, j | 0 <= i < |bids| && 0 <= j < |asks| ensures bids[i].price < asks[j].price {
        assert bids[i] in b.bids && asks[j] in b.asks;
      }
    }
  }

  // ---- runs ----

  datatype Op = Submit(order: Order) | Cancel(id: string)

  /** A trade is named by its taker and its position among the taker's fills. */
  datatype TradeKey = TradeKey(taker: string, index: nat)

  /** A book with the account of how it came about: every order ever submitted, the sum of the positive
      quantities submitted, the quantity traded, the open quantity cancelled, and all trades. */
  datatype Ledger = Ledger(book: Book, record: map<string, Order>, submitted: int, traded: int, cancelled: int, trades: seq<TradeKey>)

  /** An empty book that nothing has happened to. */
  predicate Unused(s: Ledger) {
    && s.book.bids == [] && s.book.asks == [] && s.book.orders == map[]
    && s.record == map[] && s.trades == [] && s.submitted == 0 && s.traded == 0 && s.cancelled == 0
  }

  function NewTrades(id: string, n: nat): seq<TradeKey> {
    seq(n, i requires 0 <= i < n => TradeKey(id, i))
  }

  function Apply(s: Ledger, op: Op): Ledger
    requires BookOpen(s.book)
  {
    match op
    case Submit(o) =>
      var fs := FillsOf(s.book, o);
      Ledger(Submitted(s.book, o), s.record[o.id := o], s.submitted + if o.quantity > 0 then o.quantity else 0,
             s.traded + Traded(fs), s.cancelled, s.trades + NewTrades(o.id, |fs|))
    case Cancel(id) =>
      var gone := if CancelAccepted(s.book, id) then OpenOf(s.book.bids, id) + OpenOf(s.book.asks, id) else 0;
      s.(book := Cancelled(s.book, id), cancelled := s.cancelled + gone)
  }

  /** The run is over as soon as an id is submitted a second time. */
  predicate Fresh(s: Ledger, op: Op) {
    op.Submit? ==> op.order.id !in s.record
  }

  /** Trades come from recorded takers and no key repeats. */
  ghost predicate TradesOk(record: map<string, Order>, trades: seq<TradeKey>) {
    && (forall i :: 0 <= i < |trades| ==> trades[i].taker in record)
    && (forall i, j :: 0 <= i < j < |trades| ==> trades[i] != trades[j])
  }

  ghost predicate RecordOk(s: Ledger) {
    forall id <- s.book.orders :: id in s.record && s.book.orders[id] == s.record[id]
  }

  /** Every unit submitted is traded away on both sides of a trade, still resting, or cancelled. */
  ghost predicate Conserved(s: Ledger) {
    s.submitted == 2 * s.traded + OpenSum(s.book.bids) + OpenSum(s.book.asks) + s.cancelled
  }

  ghost predicate Good(s: Ledger) {
    Inv(s.book) && RecordOk(s) && Conserved(s) && TradesOk(s.record, s.trades)
  }

  lemma FreshNotResting(s: Ledger, id: string)
    requires Inv(s.book) && RecordOk(s) && id !in s.record
    ensures NotResting(s.book.bids, id) && NotResting(s.book.asks, id)
  {
    forall i | 0 <= i < |s.book.bids| ensures s.book.bids[i].id != id {
      assert Indexed(s.book.orders, s.book.bids[i]);
    }
    forall i | 0 <= i < |s.book.asks| ensures s.book.asks[i].id != id {
      assert Indexed(s.book.orders, s.book.asks[i]);
    }
  }

  lemma TradeIdInjective(symbol: string, a: string, m: nat, b: string, n: nat)
    requires TradeId(symbol, a, m) == TradeId(symbol, b, n)
    ensures a == b && m == n
  {
    hide Dec;
    var x, y := TradeId(symbol, a, m), TradeId(symbol, b, n);
    var k := |symbol| + 1;
    assert x[k..] == a + "-" + Dec(m);
    assert y[k..] == b + "-" + Dec(n);
    LastDashSplits(a, m, b, n);
  }

  lemma TradeIdForInstance()
    ensures TradeId("BTC", "o-7", 0) == "BTC-o-7-0"
  {
    DecForInstance();
    hide Dec;
    assert "BTC" + "-" + "o-7" + "-" + "0" == "BTC-o-7-0";
  }

  lemma SubmitKeepsTrades(record: map<string, Order>, trades: seq<TradeKey>, o: Order, n: nat)
    requires TradesOk(record, trades) && o.id !in record
    ensures TradesOk(record[o.id := o], trades + NewTrades(o.id, n))
  {
  }

  /** Submitting: the makers lose what is traded, the taker's own side gains what it has left. */
  lemma SubmitConserves(b: Book, o: Order)
    requires BookOpen(b)
    ensures var q := if o.quantity > 0 then o.quantity else 0;
            OpenSum(Submitted(b, o).bids) + OpenSum(Submitted(b, o).asks)
            == OpenSum(b.bids) + OpenSum(b.asks) + q - 2 * Traded(FillsOf(b, o))
  {
    hide OpenSum, Traded, Fills, Leftover, Insert;
    var buy := IsBuy(o.side);
    var remaining := RemainingOf(b, o);
    FillsBounded(Makers(b, buy), buy, o.price, o.quantity);
    LeftoverOpenSum(Makers(b, buy), buy, o.price, o.quantity);
    if remaining > 0 {
      InsertSum(buy, if buy then b.bids else b.asks, o.(quantity := remaining, filled := 0));
    }
  }

  lemma SubmitKeepsGood(s: Ledger, o: Order)
    requires Good(s) && o.id !in s.record
    ensures BookOpen(s.book) && Good(Apply(s, Submit(o)))
  {
    hide OpenSum, Traded, FillsOf, NewTrades, TradesOk, Inv, RemainingOf, AfterFills, Rested;
    FreshNotResting(s, o.id);
    SubmitKeepsInv(s.book, o);
    SubmitConserves(s.book, o);
    SubmitKeepsTrades(s.record, s.trades, o, |FillsOf(s.book, o)|);
    SubmitRecords(s.book, o);
  }

  lemma SubmitRecords(b: Book, o: Order)
    requires BookOpen(b)
    ensures Submitted(b, o).orders == b.orders[o.id := o]
  {
  }

  lemma CancelKeepsGood(s: Ledger, id: string)
    requires Good(s)
    ensures BookOpen(s.book) && Good(Apply(s, Cancel(id)))
  {
    hide OpenSum, OpenOf, WithoutId, TradesOk, Without;
    SidesOpen(s.book);
    CancelKeepsInv(s.book, id);
    if CancelAccepted(s.book, id) {
      CancelExact(s.book, id);
      WithoutIdSum(s.book.bids, id);
      WithoutIdSum(s.book.asks, id);
    }
  }

  /** The ledger after the operations, or None once an id is reused. */
  function Run(s: Ledger, ops: seq<Op>): Option<Ledger>
    decreases |ops|
  {
    if ops == [] then Some(s)
    else if !Fresh(s, ops[0]) || !BookOpen(s.book) then None
    else Run(Apply(s, ops[0]), ops[1..])
  }

  /** Over every run of submissions with fresh ids and of cancellations: what every step keeps. */
  lemma {:induction false} RunKeepsGood(s: Ledger, ops: seq<Op>)
    requires Good(s)
    ensures Run(s, ops).Some? ==> Good(Run(s, ops).value)
    decreases |ops|
  {
    hide Good, Apply;
    if ops != [] && Fresh(s, ops[0]) {
      match ops[0] {
        case Submit(o) => SubmitKeepsGood(s, o);
        case Cancel(id) => CancelKeepsGood(s, id);
      }
      RunKeepsGood(Apply(s, ops[0]), ops[1..]);
    }
  }

  /** Freshness is the only way a run ends early: open books stay open. */
  lemma {:induction false} RunDefined(s: Ledger, ops: seq<Op>)
    requires Good(s)
    requires forall i, j :: 0 <= i < j < |ops| && ops[i].Submit? && ops[j].Submit? ==> ops[i].order.id != ops[j].order.id
    requires forall i :: 0 <= i < |ops| && ops[i].Submit? ==> ops[i].order.id !in s.record
    ensures Run(s, ops).Some?
    decreases |ops|
  {
    hide Good, Submitted, Cancelled, FillsOf;
    if ops != [] {
      match ops[0] {
        case Submit(o) => SubmitKeepsGood(s, o);
        case Cancel(id) => CancelKeepsGood(s, id);
      }
      RunDefined(Apply(s, ops[0]), ops[1..]);
    }
  }

  lemma UnusedGood(s: Ledger)
    requires Unused(s)
    ensures Good(s)
  {
  }

  /** Conservation: whatever was submitted is traded, still resting, or cancelled. */
  lemma RunConserves(s: Ledger, ops: seq<Op>, t: Ledger)
    requires Unused(s) && Run(s, ops) == Some(t)
    ensures t.submitted == 2 * t.traded + OpenSum(t.book.bids) + OpenSum(t.book.asks) + t.cancelled
  {
    hide OpenSum, Inv;
    UnusedGood(s);
    RunKeepsGood(s, ops);
  }

  /** In every reachable book the best bid is below the best ask, both sides are best first, open and
      recorded, and no id rests twice. */
  lemma ReachableBook(s: Ledger, ops: seq<Op>, t: Ledger)
    requires Unused(s) && Run(s, ops) == Some(t)
    ensures Inv(t.book)
  {
    hide OpenSum, Inv;
    UnusedGood(s);
    RunKeepsGood(s, ops);
  }

  /** No two trades of a run share the id text of their events, even when order ids hold dashes. */
  lemma TradeIdsDistinct(symbol: string, s: Ledger, ops: seq<Op>, t: Ledger, i: nat, j: nat)
    requires Unused(s) && Run(s, ops) == Some(t) && i < j < |t.trades|
    ensures TradeId(symbol, t.trades[i].taker, t.trades[i].index) != TradeId(symbol, t.trades[j].taker, t.trades[j].index)
  {
    hide OpenSum, Inv, Run;
    UnusedGood(s);
    RunKeepsGood(s, ops);
    if TradeId(symbol, t.trades[i].taker, t.trades[i].index) == TradeId(symbol, t.trades[j].taker, t.trades[j].index) {
      TradeIdInjective(symbol, t.trades[i].taker, t.trades[i].index, t.trades[j].taker, t.trades[j].index);
    }
  }

  // ---- the refusal to cancel partly filled orders ----

  /** Whether a known order can be cancelled is decided by the filled quantity it was submitted with,
      whatever has been traded of it since. */
  lemma CancelDecidedAtSubmission(s: Ledger, ops: seq<Op>, t: Ledger, id: string)
    requires Unused(s) && Run(s, ops) == Some(t) && id in t.book.orders
    ensures id in t.record
    ensures CancelAccepted(t.book, id) <==> t.record[id].filled <= 0
  {
    hide OpenSum, Inv;
    UnusedGood(s);
    RunKeepsGood(s, ops);
  }

  /** So an order submitted with nothing filled is still cancelled after half of it has traded. */
  lemma PartlyFilledOrderIsCancelled(s: Ledger, maker: Order, taker: Order) returns (t: Ledger)
    requires Unused(s)
    requires maker == Order("m", "u", "sell", 10, 4, 0) && taker == Order("t", "v", "buy", 10, 2, 0)
    ensures Run(s, [Submit(maker), Submit(taker)]) == Some(t)
    ensures t.book.asks == [maker.(filled := 2)] && t.traded == 2
    ensures CancelAccepted(t.book, "m") && Cancelled(t.book, "m").asks == []
  {
    hide Fills, Submitted, FillsOf, Traded, Run;
    FirstOrderRests(s.book, maker);
    var r := Apply(s, Submit(maker));
    HalfTaken(r.book, maker, taker);
    t := Apply(r, Submit(taker));
    RunOne(s, Submit(maker), [Submit(taker)]);
    RunOne(r, Submit(taker), []);
    RunOne(t, Submit(taker.(id := "x")), []);
    assert [Submit(maker)] + [Submit(taker)] == [Submit(maker), Submit(taker)] && [Submit(taker)] + [] == [Submit(taker)];
    assert Without([maker.(filled := 2)], "m", 10) == [] + Without([], "m", 10);
  }

  lemma RunOne(s: Ledger, op: Op, ops: seq<Op>)
    requires Fresh(s, op) && BookOpen(s.book)
    ensures Run(s, [op] + ops) == Run(Apply(s, op), ops)
    ensures Run(s, []) == Some(s)
  {
    assert ([op] + ops)[1..] == ops;
  }

  lemma FirstOrderRests(b: Book, maker: Order)
    requires b.bids == [] && b.asks == [] && maker == Order("m", "u", "sell", 10, 4, 0)
    ensures FillsOf(b, maker) == [] && Traded([]) == 0
    ensures Submitted(b, maker) == Book([], [maker], b.orders["m" := maker])
  {
  }

  lemma HalfTaken(b: Book, maker: Order, taker: Order)
    requires maker == Order("m", "u", "sell", 10, 4, 0) && taker == Order("t", "v", "buy", 10, 2, 0)
    requires b.bids == [] && b.asks == [maker]
    ensures FillsOf(b, taker) == [Fill(maker, 2)] && Traded([Fill(maker, 2)]) == 2
    ensures Submitted(b, taker) == Book([], [maker.(filled := 2)], b.orders["t" := taker])
  {
    assert Fills([maker], true, 10, 2) == [Fill(maker, 2)] + Fills([], true, 10, 0);
    assert Traded([Fill(maker, 2)]) == Traded([Fill(maker, 2)][..0]) + 2;
  }

  // ---- depth ----

  function AtPrice(os: seq<Order>, p: Int64): seq<Order> {
    if os == [] then [] else (if os[0].price == p then [os[0]] else []) + AtPrice(os[1..], p)
  }

  lemma {:induction false} AtPriceConcat(a: seq<Order>, b: seq<Order>, p: Int64)
    ensures AtPrice(a + b, p) == AtPrice(a, p) + AtPrice(b, p)
  {
    if a == [] {
      assert a + b == b;
    } else {
      assert (a + b)[1..] == a[1..] + b;
      AtPriceConcat(a[1..], b, p);
      var h := if a[0].price == p then [a[0]] else [];
      Reassociate(h, AtPrice(a[1..], p), AtPrice(b, p), []);
    }
  }

  lemma {:induction false} AtPriceUniform(os: seq<Order>, p: Int64)
    ensures (forall o <- os :: o.price == p) ==> AtPrice(os, p) == os
    ensures (forall o <- os :: o.price != p) ==> AtPrice(os, p) == []
  {
    if os != [] {
      AtPriceUniform(os[1..], p);
    }
  }

  /** The leading run is everything at the best price; what follows is strictly worse. */
  lemma {:induction false} RunSplits(desc: bool, os: seq<Order>)
    requires os != [] && BestFirst(desc, os)
    ensures forall o <- os[..RunLength(os)] :: o.price == os[0].price
    ensures forall o <- os[RunLength(os)..] :: Before(desc, os[0].price, o.price)
  {
    if |os| > 1 && os[1].price == os[0].price {
      RunSplits(desc, os[1..]);
      var n := RunLength(os[1..]);
      assert os[..n + 1] == [os[0]] + os[1..][..n];
      assert os[n + 1..] == os[1..][n..];
    } else {
      forall i | 1 <= i < |os| ensures Before(desc, os[0].price, os[i].price) {
        assert !Before(desc, os[i].price, os[1].price) && !Before(desc, os[1].price, os[0].price);
      }
    }
  }

  /** A listed level carries the whole open quantity resting at its price. */
  ghost predicate LevelCovers(os: seq<Order>, d: DepthLevel) {
    && (exists o <- os :: o.price == d.price)
    && d.quantity == Wrap64(OpenSum(AtPrice(os, d.price)))
  }

  lemma LevelOfRest(desc: bool, os: seq<Order>, n: nat, d: DepthLevel)
    requires n <= |os| && LevelCovers(os[n..], d)
    requires forall o <- os[..n] :: o.price != d.price
    ensures LevelCovers(os, d)
  {
    hide AtPrice, OpenSum;
    assert os == os[..n] + os[n..];
    AtPriceConcat(os[..n], os[n..], d.price);
    AtPriceUniform(os[..n], d.price);
    assert [] + AtPrice(os[n..], d.price) == AtPrice(os[n..], d.price);
  }

  lemma FirstLevelCovers(desc: bool, os: seq<Order>)
    requires os != [] && BestFirst(desc, os)
    ensures LevelCovers(os, DepthLevel(os[0].price, Wrap64(OpenSum(os[..RunLength(os)]))))
  {
    hide AtPrice, OpenSum, RunLength;
    var p, n := os[0].price, RunLength(os);
    RunLengthPositive(os);
    RunSplits(desc, os);
    assert os == os[..n] + os[n..];
    AtPriceConcat(os[..n], os[n..], p);
    AtPriceUniform(os[..n], p);
    AtPriceUniform(os[n..], p);
    assert AtPrice(os, p) == os[..n] + [] == os[..n];
  }

  /** The levels of what follows the best price are worse than it, and cover the whole side too. */
  lemma RestOfDepth(desc: bool, os: seq<Order>, d: DepthLevel)
    requires os != [] && BestFirst(desc, os) && LevelCovers(os[RunLength(os)..], d)
    ensures LevelCovers(os, d) && Before(desc, os[0].price, d.price)
  {
    hide AtPrice, OpenSum, RunLength;
    RunLengthPositive(os);
    RunSplits(desc, os);
    var o :| o in os[RunLength(os)..] && o.price == d.price;
    LevelOfRest(desc, os, RunLength(os), d);
  }

  /** Depth lists prices strictly best first, each with all that rests there. */
  lemma {:induction false} DepthCovers(desc: bool, os: seq<Order>, levels: int)
    requires BestFirst(desc, os)
    ensures forall i :: 0 <= i < |Depth(os, levels)| ==> LevelCovers(os, Depth(os, levels)[i])
    ensures forall i, j :: 0 <= i < j < |Depth(os, levels)| ==> Before(desc, Depth(os, levels)[i].price, Depth(os, levels)[j].price)
    decreases |os|
  {
    hide LevelCovers, RunLength, OpenSum;
    if os != [] && levels > 0 {
      var rest := os[RunLength(os)..];
      RunLengthPositive(os);
      FirstLevelCovers(desc, os);
      DepthCovers(desc, rest, levels - 1);
      var d, e := Depth(os, levels), Depth(rest, levels - 1);
      forall i | 0 < i < |d| ensures LevelCovers(os, d[i]) && Before(desc, d[0].price, d[i].price) {
        assert d[i] == e[i - 1];
        RestOfDepth(desc, os, e[i - 1]);
      }
    }
  }

  predicate Listed(d: seq<DepthLevel>, p: Int64) {
    exists i :: 0 <= i < |d| && d[i].price == p
  }

  /** A resting price is left out only when `levels` others are listed. */
  lemma {:induction false} DepthComplete(os: seq<Order>, levels: int, o: Order)
    requires o in os && |Depth(os, levels)| < levels
    ensures Listed(Depth(os, levels), o.price)
    decreases |os|
  {
    hide RunLength, OpenSum;
    var n := RunLength(os);
    RunLengthPositive(os);
    var d, e := Depth(os, levels), Depth(os[n..], levels - 1);
    assert d[0].price == os[0].price;
    if o in os[n..] {
      DepthComplete(os[n..], levels - 1, o);
      var i :| 0 <= i < |e| && e[i].price == o.price;
      assert d[i + 1] == e[i];
    } else {
      assert o in os[..n];
      RunUniform(os, o);
    }
  }

  lemma {:induction false} RunUniform(os: seq<Order>, o: Order)
    requires os != [] && o in os[..RunLength(os)]
    ensures o.price == os[0].price
  {
    if |os| > 1 && os[1].price == os[0].price && o != os[0] {
      assert os[..RunLength(os)] == [os[0]] + os[1..][..RunLength(os[1..])];
      RunUniform(os[1..], o);
    }
  }

  lemma RunLengthPositive(os: seq<Order>)
    requires os != []
    ensures 0 < RunLength(os) <= |os|
  {
  }

  /** The listed prices are the best ones: a resting price that is not listed is worse than every listed one. */
  lemma {:induction false} DepthIsBest(desc: bool, os: seq<Order>, levels: int, o: Order, i: nat)
    requires BestFirst(desc, os) && o in os && !Listed(Depth(os, levels), o.price) && i < |Depth(os, levels)|
    ensures Before(desc, Depth(os, levels)[i].price, o.price)
    decreases |os|
  {
    hide RunLength, OpenSum, BestFirst;
    var n := RunLength(os);
    RunLengthPositive(os);
    var d, e := Depth(os, levels), Depth(os[n..], levels - 1);
    assert d[0].price == os[0].price && |d| == |e| + 1 && d[1..] == e;
    hide Depth;
    assert Listed(d, os[0].price);
    RestIsWorse(desc, os, o);
    if i > 0 {
      UnlistedInTail(d, o.price);
      DepthIsBest(desc, os[n..], levels - 1, o, i - 1);
    }
  }

  lemma RestIsWorse(desc: bool, os: seq<Order>, o: Order)
    requires BestFirst(desc, os) && o in os && o.price != os[0].price
    ensures o in os[RunLength(os)..] && BestFirst(desc, os[RunLength(os)..]) && Before(desc, os[0].price, o.price)
  {
    hide RunLength;
    RunLengthPositive(os);
    RunSplits(desc, os);
    assert os == os[..RunLength(os)] + os[RunLength(os)..];
  }

  lemma UnlistedInTail(d: seq<DepthLevel>, p: Int64)
    requires d != [] && !Listed(d, p)
    ensures !Listed(d[1..], p)
  {
  }
}
