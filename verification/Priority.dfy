/** Time priority over whole runs: within a price, resting orders stand in the order they were submitted
    (biz/service/orderbook.go). */
module Priority {
  import opened Options
  import opened Int64s
  import opened Ladders
  import opened Matching
  import opened BookRuns

  /** When each order was submitted, counting from `now`. */
  function SubmittedAt(ops: seq<Op>, known: map<string, nat>, now: nat): map<string, nat>
    decreases |ops|
  {
    if ops == [] then known
    else SubmittedAt(ops[1..], if ops[0].Submit? then known[ops[0].order.id := now] else known, now + 1)
  }

  /** Of two entries at one price the one in front was submitted first. */
  ghost predicate InTurn(os: seq<Order>, at: map<string, nat>, now: nat) {
    && (forall i :: 0 <= i < |os| ==> os[i].id in at && at[os[i].id] < now)
    && (forall i, j :: 0 <= i < j < |os| && os[i].price == os[j].price ==>
                         os[i].id in at && os[j].id in at && at[os[i].id] < at[os[j].id])
  }

  ghost predicate BookInTurn(b: Book, at: map<string, nat>, now: nat) {
    InTurn(b.bids, at, now) && InTurn(b.asks, at, now)
  }

  lemma TailInTurn(l: seq<Order>, makers: seq<Order>, at: map<string, nat>, now: nat)
    requires TailOf(l, makers) && InTurn(makers, at, now)
    ensures InTurn(l, at, now)
  {
    var d := |makers| - |l|;
    assert forall i :: 0 <= i < |l| ==> l[i].id == makers[d + i].id && l[i].price == makers[d + i].price by {
      forall i | 0 <= i < |l| ensures l[i].id == makers[d + i].id && l[i].price == makers[d + i].price {
        assert SameBut(l[i], makers[d + i]);
      }
    }
  }

  /** Another order comes in and time passes. */
  lemma LaterInTurn(os: seq<Order>, at: map<string, nat>, now: nat, id: string)
    requires InTurn(os, at, now) && NotResting(os, id)
    ensures InTurn(os, at, now + 1) && InTurn(os, at[id := now], now + 1)
  {
  }

  lemma TimeInTurn(os: seq<Order>, at: map<string, nat>, now: nat)
    requires InTurn(os, at, now)
    ensures InTurn(os, at, now + 1)
  {
  }

  lemma InsertedBehindItsPrice(desc: bool, os: seq<Order>, o: Order) returns (k: nat)
    requires BestFirst(desc, os)
    ensures k <= |os| && Insert(desc, os, o) == os[..k] + [o] + os[k..]
    ensures forall j :: k <= j < |os| ==> os[j].price != o.price
  {
    k := Ahead(desc, Prices(os), o.price);
    AheadSplits(desc, Prices(os), o.price);
    hide Ahead;
    assert forall i :: 0 <= i < |os| ==> Prices(os)[i] == os[i].price;
  }

  lemma PlacedInTurn(os: seq<Order>, o: Order, k: nat, at: map<string, nat>, now: nat)
    requires InTurn(os, at, now) && o.id in at && at[o.id] == now
    requires k <= |os| && forall j :: k <= j < |os| ==> os[j].price != o.price
    ensures InTurn(os[..k] + [o] + os[k..], at, now + 1)
  {
    var r := os[..k] + [o] + os[k..];
    assert r[k] == o && forall i :: 0 <= i < k ==> r[i] == os[i];
    assert forall i :: k < i < |r| ==> r[i] == os[i - 1];
    hide InTurn;
    RankedInTurn(os, r, o, k, at, now);
  }

  lemma RankedInTurn(os: seq<Order>, r: seq<Order>, o: Order, k: nat, at: map<string, nat>, now: nat)
    requires InTurn(os, at, now) && o.id in at && at[o.id] == now && k <= |os| && |r| == |os| + 1
    requires forall j :: k <= j < |os| ==> os[j].price != o.price
    requires r[k] == o && forall i :: 0 <= i < k ==> r[i] == os[i]
    requires forall i :: k < i < |r| ==> r[i] == os[i - 1]
    ensures InTurn(r, at, now + 1)
  {
    forall i, j | 0 <= i < j < |r| && r[i].price == r[j].price
      ensures r[i].id in at && r[j].id in at && at[r[i].id] < at[r[j].id]
    {
      var x, y := if i < k then i else i - 1, if j < k then j else j - 1;
      if j == k {
        assert r[i] == os[i];
      } else if i != k {
        assert r[i] == os[x] && r[j] == os[y];
      }
    }
  }

  /** The newcomer stands behind its own price and in front of worse ones. */
  lemma InsertInTurn(desc: bool, os: seq<Order>, o: Order, at: map<string, nat>, now: nat)
    requires BestFirst(desc, os) && InTurn(os, at, now) && o.id in at && at[o.id] == now
    ensures InTurn(Insert(desc, os, o), at, now + 1)
  {
    hide InTurn, Insert;
    var k := InsertedBehindItsPrice(desc, os, o);
    PlacedInTurn(os, o, k, at, now);
  }

  lemma ConsInTurn(o: Order, rest: seq<Order>, at: map<string, nat>, now: nat)
    requires InTurn(rest, at, now) && o.id in at && at[o.id] < now
    requires forall x <- rest :: x.id in at && (x.price == o.price ==> at[o.id] < at[x.id])
    ensures InTurn([o] + rest, at, now)
  {
    assert forall i :: 0 <= i < |rest| ==> rest[i] in rest;
  }

  lemma {:induction false} WithoutIdMembers(os: seq<Order>, id: string)
    ensures forall o <- WithoutId(os, id) :: o in os
  {
    if os != [] {
      WithoutIdMembers(os[1..], id);
      assert forall o <- os[1..] :: o in os;
    }
  }

  lemma HeadInTurn(os: seq<Order>, at: map<string, nat>, now: nat)
    requires InTurn(os, at, now) && os != []
    ensures InTurn(os[1..], at, now) && os[0].id in at && at[os[0].id] < now
    ensures forall x <- os[1..] :: x.id in at && (x.price == os[0].price ==> at[os[0].id] < at[x.id])
  {
    forall x <- os[1..] ensures x.id in at && (x.price == os[0].price ==> at[os[0].id] < at[x.id]) {
      var i :| 0 <= i < |os[1..]| && os[1..][i] == x;
      assert os[i + 1] == x;
    }
  }

  lemma {:induction false} WithoutIdInTurn(os: seq<Order>, id: string, at: map<string, nat>, now: nat)
    requires InTurn(os, at, now)
    ensures InTurn(WithoutId(os, id), at, now)
  {
    if os != [] {
      hide InTurn;
      var o, rest := os[0], WithoutId(os[1..], id);
      HeadInTurn(os, at, now);
      WithoutIdMembers(os[1..], id);
      WithoutIdInTurn(os[1..], id, at, now);
      assert WithoutId(os, id) == if o.id == id then rest else [o] + rest;
      hide WithoutId;
      ConsInTurn(o, rest, at, now);
    }
  }

  lemma SubmitInTurn(b: Book, o: Order, at: map<string, nat>, now: nat)
    requires Inv(b) && NotResting(b.bids, o.id) && NotResting(b.asks, o.id) && BookInTurn(b, at, now) && BookOpen(b)
    ensures BookInTurn(Submitted(b, o), at[o.id := now], now + 1)
  {
    hide Fills, Leftover, Traded, Insert, InTurn;
    var buy := IsBuy(o.side);
    var makers := Makers(b, buy);
    LeftoverIsTail(makers, buy, o.price, o.quantity);
    FillsBounded(makers, buy, o.price, o.quantity);
    TailInTurn(Leftover(makers, buy, o.price, o.quantity), makers, at, now);
    var c := AfterFills(b, o);
    LeftoverNotResting(makers, Leftover(makers, buy, o.price, o.quantity), o.id);
    LaterInTurn(c.bids, at, now, o.id);
    LaterInTurn(c.asks, at, now, o.id);
    var own := if buy then b.bids else b.asks;
    var r := o.(quantity := RemainingOf(b, o), filled := 0);
    if r.quantity > 0 {
      StillInTurn(own, at, now, o.id);
      InsertInTurn(buy, own, r, at[o.id := now], now);
    }
  }

  lemma StillInTurn(os: seq<Order>, at: map<string, nat>, now: nat, id: string)
    requires InTurn(os, at, now) && NotResting(os, id)
    ensures InTurn(os, at[id := now], now)
  {
  }

  lemma LeftoverNotResting(makers: seq<Order>, l: seq<Order>, id: string)
    requires TailOf(l, makers) && NotResting(makers, id)
    ensures NotResting(l, id)
  {
    forall i | 0 <= i < |l| ensures l[i].id != id {
      assert SameBut(l[i], makers[|makers| - |l| + i]);
    }
  }

  lemma CancelInTurn(b: Book, id: string, at: map<string, nat>, now: nat)
    requires Inv(b) && BookInTurn(b, at, now)
    ensures BookInTurn(Cancelled(b, id), at, now + 1)
  {
    hide InTurn, WithoutId, Without, SideInv;
    TimeInTurn(b.bids, at, now);
    TimeInTurn(b.asks, at, now);
    if CancelAccepted(b, id) {
      CancelExact(b, id);
      WithoutIdInTurn(b.bids, id, at, now + 1);
      WithoutIdInTurn(b.asks, id, at, now + 1);
    }
  }

  lemma {:induction false} RunInTurn(s: Ledger, ops: seq<Op>, t: Ledger, at: map<string, nat>, now: nat)
    requires Good(s) && BookInTurn(s.book, at, now) && BookRuns.Run(s, ops) == Some(t)
    ensures BookInTurn(t.book, SubmittedAt(ops, at, now), now + |ops|)
    decreases |ops|
  {
    hide BookInTurn, Good, Submitted, Cancelled, FillsOf, Inv;
    if ops != [] {
      match ops[0] {
        case Submit(o) =>
          GoodParts(s, o.id);
          SubmitInTurn(s.book, o, at, now);
          SubmitKeepsGood(s, o);
        case Cancel(id) =>
          GoodInv(s);
          CancelInTurn(s.book, id, at, now);
          CancelKeepsGood(s, id);
      }
      var known := if ops[0].Submit? then at[ops[0].order.id := now] else at;
      RunInTurn(Apply(s, ops[0]), ops[1..], t, known, now + 1);
    }
  }

  lemma GoodInv(s: Ledger)
    requires Good(s)
    ensures Inv(s.book)
  {
  }

  lemma GoodParts(s: Ledger, id: string)
    requires Good(s) && id !in s.record
    ensures Inv(s.book) && BookOpen(s.book) && NotResting(s.book.bids, id) && NotResting(s.book.asks, id)
  {
    FreshNotResting(s, id);
    SidesOpen(s.book);
  }

  /** In every reachable book, of two orders resting at one price the one submitted first is in front, so it
      trades first. */
  lemma TimePriority(s: Ledger, ops: seq<Op>, t: Ledger, i: nat, j: nat)
    requires Unused(s) && BookRuns.Run(s, ops) == Some(t) && i < j
    ensures var at := SubmittedAt(ops, map[], 0);
            && (j < |t.book.bids| && t.book.bids[i].price == t.book.bids[j].price ==>
                  && t.book.bids[i].id in at && t.book.bids[j].id in at
                  && at[t.book.bids[i].id] < at[t.book.bids[j].id])
            && (j < |t.book.asks| && t.book.asks[i].price == t.book.asks[j].price ==>
                  && t.book.asks[i].id in at && t.book.asks[j].id in at
                  && at[t.book.asks[i].id] < at[t.book.asks[j].id])
  {
    UnusedGood(s);
    RunInTurn(s, ops, t, map[], 0);
  }
}
