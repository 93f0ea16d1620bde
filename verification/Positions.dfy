/** User positions with integer weighted-average cost (biz/service/asset_service.go). */
module Positions {
  import opened Options
  import opened Int64s

  /** The bigint columns of a position row: volume and average price in 10^-8 units. */
  datatype Position = Position(volume: Int64, avg: Int64)

  datatype Key = Key(user: string, symbol: string)

  type Table = map<Key, Position>

  /** Buying into an existing row; the volume is added in int64, the average in big integers. */
  function BuyMore(held: Position, qty: Int64, price: Int64): Option<Position> {
    var newQty := Wrap64(held.volume + qty);
    if newQty == 0 then None
    else
      var newAvg := (held.volume * held.avg + qty * price) / newQty;
      if IsInt64(newAvg) then Some(Position(newQty, newAvg)) else None
  }

  function Bought(t: Table, k: Key, qty: Int64, price: Int64): Option<Table> {
    if k !in t then Some(t[k := Position(qty, price)])
    else
      var p := BuyMore(t[k], qty, price);
      if p.None? then None else Some(t[k := p.value])
  }

  /** Selling needs a row with enough volume; the average is kept, or reset when nothing is left. */
  function Sold(t: Table, k: Key, qty: Int64): Option<Table> {
    if k !in t || t[k].volume < qty then None
    else
      var newQty := Wrap64(t[k].volume - qty);
      Some(t[k := Position(newQty, if newQty == 0 then 0 else t[k].avg)])
  }

  /** The positions table, changed row by row; a refused call leaves it as it was. */
  class PositionTable {
    var rows: Table

    constructor (rows: Table)
      ensures this.rows == rows
    {
      this.rows := rows;
    }

    method BuyPositionTx(user: string, symbol: string, buyQty: Int64, buyPrice: Int64) returns (ok: bool)
      modifies this
      ensures ok == Bought(old(rows), Key(user, symbol), buyQty, buyPrice).Some?
      ensures rows == if ok then Bought(old(rows), Key(user, symbol), buyQty, buyPrice).value else old(rows)
    {
      var k := Key(user, symbol);
      if k !in rows {
        rows := rows[k := Position(buyQty, buyPrice)];
        return true;
      }
      var oldQty, oldAvg := rows[k].volume, rows[k].avg;
      var newQty := Wrap64(oldQty + buyQty);
      var sum := oldQty * oldAvg + buyQty * buyPrice;
      if newQty == 0 {
        return false;
      }
      var newAvg := sum / newQty;
      if !IsInt64(newAvg) {
        return false;
      }
      rows := rows[k := Position(newQty, newAvg)];
      return true;
    }

    method SellPositionTx(user: string, symbol: string, sellQty: Int64) returns (ok: bool)
      modifies this
      ensures ok == Sold(old(rows), Key(user, symbol), sellQty).Some?
      ensures rows == if ok then Sold(old(rows), Key(user, symbol), sellQty).value else old(rows)
    {
      var k := Key(user, symbol);
      if k !in rows {
        return false;
      }
      var pos := rows[k];
      if pos.volume < sellQty {
        return false;
      }
      var newQty := Wrap64(pos.volume - sellQty);
      pos := pos.(volume := newQty);
      if newQty == 0 {
        pos := pos.(avg := 0);
      }
      rows := rows[k := pos];
      return true;
    }
  }

  // ---- the weighted average over a sequence of buys ----

  datatype Buy = Buy(qty: Int64, price: Int64)

  /** The row after buying from nothing, or None when some buy is refused. */
  function AfterBuys(buys: seq<Buy>): Option<Position>
    requires buys != []
  {
    var b := buys[|buys| - 1];
    if |buys| == 1 then Some(Position(b.qty, b.price))
    else
      var p := AfterBuys(buys[..|buys| - 1]);
      if p.None? then None else BuyMore(p.value, b.qty, b.price)
  }

  function TotalQty(buys: seq<Buy>): int {
    if buys == [] then 0 else TotalQty(buys[..|buys| - 1]) + buys[|buys| - 1].qty
  }

  function TotalCost(buys: seq<Buy>): int {
    if buys == [] then 0 else TotalCost(buys[..|buys| - 1]) + buys[|buys| - 1].qty * buys[|buys| - 1].price
  }

  /** Sum of (running quantity - 1) over the buys after the first. */
  function RoundingSlack(buys: seq<Buy>): int {
    if |buys| <= 1 then 0 else RoundingSlack(buys[..|buys| - 1]) + TotalQty(buys) - 1
  }

  ghost predicate PricesWithin(buys: seq<Buy>, lo: int, hi: int) {
    forall i :: 0 <= i < |buys| ==> lo <= buys[i].price <= hi
  }

  ghost predicate PositiveBuys(buys: seq<Buy>) {
    buys != [] && forall i :: 0 <= i < |buys| ==> buys[i].qty > 0
  }

  lemma SignOfFactor(n: int, x: int)
    requires n > 0
    ensures n * x >= 0 <==> x >= 0
    ensures n * x > 0 <==> x > 0
  {
  }

  lemma QuotientBetween(s: int, n: int, lo: int, hi: int)
    requires n > 0 && n * lo <= s <= n * hi
    ensures lo <= s / n <= hi && s == n * (s / n) + s % n && 0 <= s % n < n
  {
    var d := s / n;
    assert s == n * d + s % n;
    assert n * (hi - d) == n * hi - n * d && n * (d + 1 - lo) == n * d + n - n * lo;
    SignOfFactor(n, hi - d);
    SignOfFactor(n, d + 1 - lo);
  }

  lemma Mediant(q: int, a: int, r: int, p: int, lo: int, hi: int)
    requires q > 0 && r > 0 && lo <= a <= hi && lo <= p <= hi
    ensures (q + r) * lo <= q * a + r * p <= (q + r) * hi
  {
    assert q * lo <= q * a <= q * hi && r * lo <= r * p <= r * hi;
    assert (q + r) * lo == q * lo + r * lo && (q + r) * hi == q * hi + r * hi;
  }

  lemma {:induction false} RunningQtyPositive(buys: seq<Buy>)
    requires PositiveBuys(buys)
    ensures TotalQty(buys) >= |buys|
  {
    if |buys| > 1 {
      RunningQtyPositive(buys[..|buys| - 1]);
    }
  }

  /** One further buy: the rounding error grows by the remainder of one division. */
  lemma BuyMoreStep(p: Position, b: Buy, lo: int, hi: int, cost: int, slack: int)
    requires p.volume > 0 && b.qty > 0 && p.volume + b.qty <= INT64_MAX
    requires INT64_MIN <= lo <= p.avg <= hi <= INT64_MAX && lo <= b.price <= hi
    requires 0 <= cost - p.avg * p.volume <= slack
    ensures BuyMore(p, b.qty, b.price).Some?
    ensures var r := BuyMore(p, b.qty, b.price).value;
            && r.volume == p.volume + b.qty && lo <= r.avg <= hi
            && 0 <= cost + b.qty * b.price - r.avg * r.volume <= slack + r.volume - 1
  {
    var q, n := p.volume, p.volume + b.qty;
    Wrap64Absorbs(n, 0);
    Mediant(q, p.avg, b.qty, b.price, lo, hi);
    var s := q * p.avg + b.qty * b.price;
    QuotientBetween(s, n, lo, hi);
    var avg := s / n;
    assert BuyMore(p, b.qty, b.price) == Some(Position(n, avg));
    assert avg * n == n * avg && q * p.avg == p.avg * q;
  }

  /** For positive buys whose total fits int64: no buy is refused, the volume is the total, the average lies
      between any bounds on the prices paid, and the exact cost exceeds average times volume by at most
      the slack of one rounding per later buy. */
  lemma {:induction false} WeightedAverage(buys: seq<Buy>, lo: int, hi: int)
    requires PositiveBuys(buys) && TotalQty(buys) <= INT64_MAX
    requires PricesWithin(buys, lo, hi) && INT64_MIN <= lo && hi <= INT64_MAX
    ensures AfterBuys(buys).Some?
    ensures AfterBuys(buys).value.volume == TotalQty(buys)
    ensures lo <= AfterBuys(buys).value.avg <= hi
    ensures 0 <= TotalCost(buys) - AfterBuys(buys).value.avg * TotalQty(buys) <= RoundingSlack(buys)
  {
    var b, init := buys[|buys| - 1], buys[..|buys| - 1];
    if |buys| == 1 {
      assert TotalQty(init) == 0 && TotalCost(init) == 0;
    } else {
      RunningQtyPositive(init);
      WeightedAverage(init, lo, hi);
      BuyMoreStep(AfterBuys(init).value, b, lo, hi, TotalCost(init), RoundingSlack(init));
    }
  }

  /** The total is the exact limit: one buy more and the volume no longer is what was bought. */
  lemma VolumeIsTotalUpToInt64(buys: seq<Buy>, b: Buy)
    requires PositiveBuys(buys) && b.qty > 0 && TotalQty(buys) <= INT64_MAX
    ensures AfterBuys(buys).Some?
    ensures TotalQty(buys + [b]) == TotalQty(buys) + b.qty
    ensures (AfterBuys(buys + [b]).Some? && AfterBuys(buys + [b]).value.volume == TotalQty(buys + [b]))
            <==> TotalQty(buys + [b]) <= INT64_MAX
  {
    var all := buys + [b];
    assert all[..|all| - 1] == buys;
    WeightedAverage(buys, INT64_MIN, INT64_MAX);
    RunningQtyPositive(buys);
    Wrap64Absorbs(TotalQty(all), 0);
    if TotalQty(all) <= INT64_MAX {
      WeightedAverage(all, INT64_MIN, INT64_MAX);
    }
  }
}
