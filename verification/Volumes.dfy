/** What settlement conserves: per symbol, the volume held by all users together. */
module Volumes {
  import opened Options
  import opened Int64s
  import opened Matching
  import opened Positions
  import opened Settlement

  function Weight(t: Table, k: Key, symbol: string): int
    requires k in t
  {
    if k.symbol == symbol then t[k].volume else 0
  }

  /** Sum of the volumes of all rows of a symbol. */
  ghost function Total(t: Table, symbol: string): int {
    if t == map[] then 0
    else
      var k :| k in t;
      Weight(t, k, symbol) + Total(t - {k}, symbol)
  }

  lemma {:induction false} TotalPick(t: Table, symbol: string, k: Key)
    requires k in t
    ensures Total(t, symbol) == Weight(t, k, symbol) + Total(t - {k}, symbol)
    decreases |t|
  {
    var j :| j in t && Total(t, symbol) == Weight(t, j, symbol) + Total(t - {j}, symbol);
    if j != k {
      TotalPick(t - {j}, symbol, k);
      TotalPick(t - {k}, symbol, j);
      assert t - {j} - {k} == t - {k} - {j};
      assert Weight(t - {j}, k, symbol) == Weight(t, k, symbol) && Weight(t - {k}, j, symbol) == Weight(t, j, symbol);
    }
  }

  lemma TotalPut(t: Table, symbol: string, k: Key, p: Position)
    ensures Total(t[k := p], symbol) ==
            Total(t, symbol) + (if k.symbol == symbol then p.volume else 0) - if k in t then Weight(t, k, symbol) else 0
  {
    TotalPick(t[k := p], symbol, k);
    if k in t {
      TotalPick(t, symbol, k);
      assert t[k := p] - {k} == t - {k};
    } else {
      assert t[k := p] - {k} == t;
    }
  }

  ghost predicate NonNegative(t: Table) {
    forall k <- t :: t[k].volume >= 0
  }

  lemma {:induction false} TotalNonNegative(t: Table, symbol: string)
    requires NonNegative(t)
    ensures Total(t, symbol) >= 0
    decreases |t|
  {
    if t != map[] {
      var k :| k in t && Total(t, symbol) == Weight(t, k, symbol) + Total(t - {k}, symbol);
      assert Weight(t, k, symbol) >= 0;
      TotalNonNegative(t - {k}, symbol);
    }
  }

  function VolumeOf(t: Table, k: Key): int {
    if k in t then t[k].volume else 0
  }

  /** Any two different rows of a symbol hold no more than the total. */
  lemma TwoWithinTotal(t: Table, a: Key, b: Key)
    requires NonNegative(t) && a.symbol == b.symbol && a != b
    ensures VolumeOf(t, a) + VolumeOf(t, b) <= Total(t, a.symbol) && VolumeOf(t, a) <= Total(t, a.symbol)
  {
    var s := a.symbol;
    TotalNonNegative(t, s);
    if a in t {
      TotalPick(t, s, a);
      TotalNonNegative(t - {a}, s);
      if b in t {
        TotalPick(t - {a}, s, b);
        TotalNonNegative(t - {a} - {b}, s);
      }
    } else if b in t {
      TotalPick(t, s, b);
      TotalNonNegative(t - {b}, s);
    }
  }

  /** A buy adds its quantity to the row's volume, modulo int64. */
  lemma BoughtVolumes(t: Table, k: Key, q: Int64, p: Int64)
    requires Bought(t, k, q, p).Some?
    ensures forall x :: x != k ==> VolumeOf(Bought(t, k, q, p).value, x) == VolumeOf(t, x)
    ensures Bought(t, k, q, p).value.Keys == t.Keys + {k}
    ensures VolumeOf(Bought(t, k, q, p).value, k) == Wrap64(VolumeOf(t, k) + q)
    ensures forall s :: Total(Bought(t, k, q, p).value, s) ==
                        Total(t, s) + if s == k.symbol then Wrap64(VolumeOf(t, k) + q) - VolumeOf(t, k) else 0
  {
    var r := Bought(t, k, q, p).value;
    Wrap64Absorbs(q, 0);
    forall s ensures Total(r, s) == Total(t, s) + if s == k.symbol then Wrap64(VolumeOf(t, k) + q) - VolumeOf(t, k) else 0 {
      TotalPut(t, s, k, r[k]);
    }
  }

  /** A sale of a non-negative quantity takes it out of the row's volume, which had that much. */
  lemma SoldVolumes(t: Table, k: Key, q: Int64)
    requires Sold(t, k, q).Some? && q >= 0
    ensures k in t && q <= t[k].volume
    ensures forall x :: x != k ==> VolumeOf(Sold(t, k, q).value, x) == VolumeOf(t, x)
    ensures Sold(t, k, q).value.Keys == t.Keys
    ensures VolumeOf(Sold(t, k, q).value, k) == VolumeOf(t, k) - q
    ensures forall s :: Total(Sold(t, k, q).value, s) == Total(t, s) - if s == k.symbol then q else 0
  {
    var r := Sold(t, k, q).value;
    Wrap64Absorbs(t[k].volume - q, 0);
    forall s ensures Total(r, s) == Total(t, s) - if s == k.symbol then q else 0 {
      TotalPut(t, s, k, r[k]);
    }
  }

  /** Every symbol's total is one int64 can hold. */
  ghost predicate Fits(t: Table) {
    forall s: string :: Total(t, s) <= INT64_MAX
  }

  ghost predicate SameTotals(t: Table, u: Table) {
    forall s: string :: Total(t, s) == Total(u, s)
  }

  /** The buyer's volume plus the quantity still is an int64; a self-trade always is fine. */
  predicate RoomFor(t: Table, buyer: Key, seller: Key, q: Int64) {
    buyer == seller || VolumeOf(t, buyer) + q <= INT64_MAX
  }

  lemma BuyThenSell(t: Table, buyer: Key, seller: Key, q: Int64, p: Int64)
    requires NonNegative(t) && q >= 0 && buyer.symbol == seller.symbol
    requires Bought(t, buyer, q, p).Some? && Sold(Bought(t, buyer, q, p).value, seller, q).Some?
    ensures var r := Sold(Bought(t, buyer, q, p).value, seller, q).value;
            (NonNegative(r) && SameTotals(r, t)) <==> RoomFor(t, buyer, seller, q)
    ensures buyer != seller ==> q <= VolumeOf(t, seller)
  {
    hide Total, Bought, Sold, Wrap64;
    var m := Bought(t, buyer, q, p).value;
    var r := Sold(m, seller, q).value;
    BoughtVolumes(t, buyer, q, p);
    SoldVolumes(m, seller, q);
    WrapDown(VolumeOf(t, buyer), q);
    VolumesBack(t, r, buyer, seller, q);
  }

  /** Only the two rows changed, and the seller keeps a non-negative volume. */
  lemma VolumesBack(t: Table, r: Table, buyer: Key, seller: Key, q: Int64)
    requires NonNegative(t) && q >= 0 && buyer in r
    requires forall x :: x != buyer && x != seller ==> VolumeOf(r, x) == VolumeOf(t, x)
    requires buyer == seller ==> VolumeOf(r, buyer) == VolumeOf(t, buyer)
    requires buyer != seller ==> VolumeOf(r, buyer) == Wrap64(VolumeOf(t, buyer) + q) && VolumeOf(r, seller) == VolumeOf(t, seller) - q >= 0
    ensures NonNegative(r) <==> RoomFor(t, buyer, seller, q)
  {
    hide Wrap64;
    WrapDown(VolumeOf(t, buyer), q);
    if RoomFor(t, buyer, seller, q) {
      forall k <- r ensures r[k].volume >= 0 {
        assert r[k].volume == VolumeOf(r, k) && VolumeOf(t, k) >= 0;
      }
    } else {
      assert r[buyer].volume < 0;
    }
  }

  /** An addition of non-negatives either is exact or wraps below zero. */
  lemma WrapDown(a: int, b: int)
    requires 0 <= a <= INT64_MAX && 0 <= b <= INT64_MAX
    ensures Wrap64(a + b) == a + b <==> a + b <= INT64_MAX
    ensures a + b > INT64_MAX ==> Wrap64(a + b) < 0
  {
  }

  lemma SellThenBuy(t: Table, seller: Key, buyer: Key, q: Int64, p: Int64)
    requires NonNegative(t) && q >= 0 && buyer.symbol == seller.symbol
    requires Sold(t, seller, q).Some? && Bought(Sold(t, seller, q).value, buyer, q, p).Some?
    ensures var r := Bought(Sold(t, seller, q).value, buyer, q, p).value;
            (NonNegative(r) && SameTotals(r, t)) <==> RoomFor(t, buyer, seller, q)
    ensures buyer != seller ==> q <= VolumeOf(t, seller)
  {
    hide Total, Bought, Sold, Wrap64;
    var m := Sold(t, seller, q).value;
    var r := Bought(m, buyer, q, p).value;
    SoldVolumes(t, seller, q);
    BoughtVolumes(m, buyer, q, p);
    WrapDown(VolumeOf(m, buyer), q);
    VolumesBack(t, r, buyer, seller, q);
  }

  function Buyer(e: Trade): Key {
    Key(if e.takerSide == "buy" then e.takerUser else e.makerUser, e.symbol)
  }

  function Seller(e: Trade): Key {
    Key(if e.takerSide == "buy" then e.makerUser else e.takerUser, e.symbol)
  }

  /** A trade that settles conserves every total and keeps volumes non-negative exactly when the buyer has
      room for the quantity. */
  lemma SettledConservesIff(cv: Conversion, t: Table, e: Trade)
    requires NonNegative(t) && cv.qty(e.quantity) >= 0 && Settled(cv, t, e).Some?
    ensures (NonNegative(Settled(cv, t, e).value) && SameTotals(Settled(cv, t, e).value, t))
            <==> RoomFor(t, Buyer(e), Seller(e), cv.qty(e.quantity))
    ensures Buyer(e) != Seller(e) ==> cv.qty(e.quantity) <= VolumeOf(t, Seller(e))
  {
    hide Total, Bought, Sold;
    var q, p := cv.qty(e.quantity), cv.price(e.price);
    if e.takerSide == "buy" {
      BuyThenSell(t, Key(e.takerUser, e.symbol), Key(e.makerUser, e.symbol), q, p);
    } else {
      SellThenBuy(t, Key(e.takerUser, e.symbol), Key(e.makerUser, e.symbol), q, p);
    }
  }

  /** While the totals fit int64 there always is room, because the seller must hold what the buyer gains. */
  lemma SettledConserves(cv: Conversion, t: Table, e: Trade)
    requires NonNegative(t) && Fits(t) && cv.qty(e.quantity) >= 0 && Settled(cv, t, e).Some?
    ensures NonNegative(Settled(cv, t, e).value) && SameTotals(Settled(cv, t, e).value, t)
  {
    hide Total, Settled;
    SettledConservesIff(cv, t, e);
    if Buyer(e) != Seller(e) {
      TwoWithinTotal(t, Buyer(e), Seller(e));
    }
  }

  lemma CostBetween(v: int, a: int, q: int, p: int, lo: int, hi: int)
    requires v >= 0 && q > 0 && lo <= a <= hi && lo <= p <= hi
    ensures (v + q) * lo <= v * a + q * p <= (v + q) * hi
  {
    if v > 0 {
      Mediant(v, a, q, p, lo, hi);
    } else {
      assert v * a == 0;
      assert q * lo <= q * p <= q * hi;
    }
  }

  lemma AverageFits(v: int, a: Int64, q: int, p: Int64)
    requires v >= 0 && q > 0
    ensures IsInt64((v * a + q * p) / (v + q))
  {
    var lo, hi := if a < p then a else p, if a < p then p else a;
    CostBetween(v, a, q, p, lo, hi);
    QuotientBetween(v * a + q * p, v + q, lo, hi);
  }

  /** A buy is accepted while the volume still is an int64. */
  lemma BoughtWithRoom(t: Table, k: Key, q: Int64, p: Int64)
    requires q > 0 && 0 <= VolumeOf(t, k) && VolumeOf(t, k) + q <= INT64_MAX
    ensures Bought(t, k, q, p).Some?
  {
    hide IsInt64;
    if k in t {
      WrapDown(t[k].volume, q);
      AverageFits(t[k].volume, t[k].avg, q, p);
    }
  }

  /** What the parties must have before a trade: the seller the quantity, or, buying as a taker from
      themselves, room for it. */
  predicate CanSettle(t: Table, e: Trade, q: Int64) {
    if Buyer(e) == Seller(e) && e.takerSide == "buy" then VolumeOf(t, Buyer(e)) + q <= INT64_MAX
    else Seller(e) in t && q <= t[Seller(e)].volume
  }

  lemma BuyerHasRoom(t: Table, e: Trade, q: Int64)
    requires NonNegative(t) && Fits(t) && q > 0 && CanSettle(t, e, q) && Buyer(e) != Seller(e)
    ensures 0 <= VolumeOf(t, Buyer(e)) && VolumeOf(t, Buyer(e)) + q <= INT64_MAX
  {
    hide Total;
    TwoWithinTotal(t, Buyer(e), Seller(e));
  }

  lemma BuySettlesIff(t: Table, e: Trade, q: Int64, p: Int64)
    requires NonNegative(t) && Fits(t) && q > 0 && e.takerSide == "buy"
    ensures (Bought(t, Buyer(e), q, p).Some? && Sold(Bought(t, Buyer(e), q, p).value, Seller(e), q).Some?) <==> CanSettle(t, e, q)
  {
    hide Total, Fits;
    var k := Buyer(e);
    Wrap64Absorbs(VolumeOf(t, k) + q, 0);
    if CanSettle(t, e, q) {
      if k != Seller(e) {
        BuyerHasRoom(t, e, q);
      }
      BoughtWithRoom(t, k, q, p);
      BoughtVolumes(t, k, q, p);
    } else if Bought(t, k, q, p).Some? {
      BoughtVolumes(t, k, q, p);
      if k == Seller(e) {
        WrapDown(VolumeOf(t, k), q);
      }
    }
  }

  lemma SellSettlesIff(t: Table, e: Trade, q: Int64, p: Int64)
    requires NonNegative(t) && Fits(t) && q > 0 && e.takerSide != "buy"
    ensures (Sold(t, Seller(e), q).Some? && Bought(Sold(t, Seller(e), q).value, Buyer(e), q, p).Some?) <==> CanSettle(t, e, q)
  {
    hide Total, Fits;
    if Sold(t, Seller(e), q).Some? {
      SoldVolumes(t, Seller(e), q);
      if Buyer(e) != Seller(e) {
        BuyerHasRoom(t, e, q);
      }
      BoughtWithRoom(Sold(t, Seller(e), q).value, Buyer(e), q, p);
    }
  }

  /** Which trades settle: exactly those whose seller holds the quantity, with the one exception above. */
  lemma SettlesIff(cv: Conversion, t: Table, e: Trade)
    requires NonNegative(t) && Fits(t) && cv.qty(e.quantity) > 0
    ensures Settled(cv, t, e).Some? <==> CanSettle(t, e, cv.qty(e.quantity))
  {
    hide Total, Fits, Bought, Sold, CanSettle;
    if e.takerSide == "buy" {
      BuySettlesIff(t, e, cv.qty(e.quantity), cv.price(e.price));
    } else {
      SellSettlesIff(t, e, cv.qty(e.quantity), cv.price(e.price));
    }
  }

  /** A settled trade between two users moves its quantity from the one to the other. */
  lemma SettledMoves(cv: Conversion, t: Table, e: Trade)
    requires NonNegative(t) && Fits(t) && cv.qty(e.quantity) > 0 && Buyer(e) != Seller(e) && Settled(cv, t, e).Some?
    ensures VolumeOf(Settled(cv, t, e).value, Buyer(e)) == VolumeOf(t, Buyer(e)) + cv.qty(e.quantity)
    ensures VolumeOf(Settled(cv, t, e).value, Seller(e)) == VolumeOf(t, Seller(e)) - cv.qty(e.quantity)
  {
    hide Total, Fits, Bought, Sold;
    var q, p := cv.qty(e.quantity), cv.price(e.price);
    SettlesIff(cv, t, e);
    BuyerHasRoom(t, e, q);
    Wrap64Absorbs(VolumeOf(t, Buyer(e)) + q, 0);
    if e.takerSide == "buy" {
      BoughtVolumes(t, Buyer(e), q, p);
      SoldVolumes(Bought(t, Buyer(e), q, p).value, Seller(e), q);
    } else {
      SoldVolumes(t, Seller(e), q);
      BoughtVolumes(Sold(t, Seller(e), q).value, Buyer(e), q, p);
    }
  }

  // ---- average cost ----

  /** A sale leaves the average cost as it was, or at 0 exactly when nothing is left, and touches no other row. */
  lemma SoldKeepsAverage(t: Table, k: Key, q: Int64)
    requires Sold(t, k, q).Some?
    ensures var r := Sold(t, k, q).value;
            && k in t && k in r && r[k].avg == (if r[k].volume == 0 then 0 else t[k].avg)
            && forall x: Key :: x != k ==> (x in r <==> x in t) && (x in t ==> r[x] == t[x])
  {
  }

  /** A buy: a first one costs its price; a later one leaves an average between the old one and the price, short
      of the exact cost by less than one unit per piece held. No other row is touched. */
  lemma BoughtCost(t: Table, k: Key, q: Int64, p: Int64)
    requires q > 0 && 0 <= VolumeOf(t, k) && VolumeOf(t, k) + q <= INT64_MAX
    ensures Bought(t, k, q, p).Some?
    ensures var r := Bought(t, k, q, p).value;
            && k in r && r[k].volume == VolumeOf(t, k) + q
            && (k !in t ==> r[k].avg == p)
            && (k in t ==>
                  && 0 <= t[k].volume * t[k].avg + q * p - r[k].avg * r[k].volume < r[k].volume
                  && (t[k].avg <= r[k].avg <= p || p <= r[k].avg <= t[k].avg))
            && forall x: Key :: x != k ==> (x in r <==> x in t) && (x in t ==> r[x] == t[x])
  {
    hide IsInt64;
    WrapDown(VolumeOf(t, k), q);
    BoughtWithRoom(t, k, q, p);
    if k in t {
      var v, a, n := t[k].volume, t[k].avg, t[k].volume + q;
      var lo, hi := if a < p then a else p, if a < p then p else a;
      CostBetween(v, a, q, p, lo, hi);
      QuotientBetween(v * a + q * p, n, lo, hi);
      var avg := (v * a + q * p) / n;
      assert BuyMore(t[k], q, p) == Some(Position(n, avg));
      assert avg * n == n * avg;
    }
  }

  /** What a settled trade does to cost: the seller's average stays, or is 0 once all is sold; the buyer's takes
      in the quantity at the price of the trade; nobody else's row changes. */
  lemma SettledAverages(cv: Conversion, t: Table, e: Trade)
    requires NonNegative(t) && Fits(t) && cv.qty(e.quantity) > 0 && Buyer(e) != Seller(e) && Settled(cv, t, e).Some?
    ensures var r, b, s, q, p := Settled(cv, t, e).value, Buyer(e), Seller(e), cv.qty(e.quantity), cv.price(e.price);
            && s in t && s in r && r[s].avg == (if r[s].volume == 0 then 0 else t[s].avg)
            && b in r && r[b].volume == VolumeOf(t, b) + q
            && (b !in t ==> r[b].avg == p)
            && (b in t ==>
                  && 0 <= t[b].volume * t[b].avg + q * p - r[b].avg * r[b].volume < r[b].volume
                  && (t[b].avg <= r[b].avg <= p || p <= r[b].avg <= t[b].avg))
            && forall x: Key :: x != b && x != s ==> (x in r <==> x in t) && (x in t ==> r[x] == t[x])
  {
    hide Total, Fits, Bought, Sold, NonNegative;
    var b, s, q, p := Buyer(e), Seller(e), cv.qty(e.quantity), cv.price(e.price);
    SettlesIff(cv, t, e);
    BuyerHasRoom(t, e, q);
    if e.takerSide == "buy" {
      BoughtCost(t, b, q, p);
      SoldKeepsAverage(Bought(t, b, q, p).value, s, q);
    } else {
      SoldKeepsAverage(t, s, q);
      SoldVolumes(t, s, q);
      BoughtCost(Sold(t, s, q).value, b, q, p);
    }
  }

  ghost predicate QuantitiesOk(cv: Conversion, ds: seq<Delivery>) {
    forall i :: 0 <= i < |ds| ==> cv.qty(ds[i].trade.quantity) >= 0
  }

  /** Over every run of deliveries, with duplicates and failures, no volume goes negative and every
      symbol's total over all users is what it was. */
  lemma {:induction false} RunConservesVolume(cv: Conversion, db: Db, ds: seq<Delivery>)
    requires NonNegative(db.positions) && Fits(db.positions) && QuantitiesOk(cv, ds)
    ensures NonNegative(Run(cv, db, ds).positions) && SameTotals(Run(cv, db, ds).positions, db.positions)
    decreases |ds|
  {
    hide Total;
    if ds != [] {
      var e, f := ds[0].trade, ds[0].faults;
      if Commits(cv, db, e, f) {
        SettledConserves(cv, db.positions, e);
      }
      RunConservesVolume(cv, Handled(cv, db, e, f), ds[1..]);
    }
  }
}
