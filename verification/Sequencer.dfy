/** Global sequence numbers: a 10-bit node id above a 40-bit local counter (biz/service/sequencer.go). */
module Sequencing {
  const MAX_NODE: nat := 1023
  const LOCAL_RANGE: nat := 0x100_0000_0000
  const UINT64_RANGE: nat := 0x1_0000_0000_0000_0000

  type Uint64 = x: nat | x < 0x1_0000_0000_0000_0000

  const LOCAL_BITS: nat := 40
  const LOCAL_MASK: nat := 0xFF_FFFF_FFFF

  // ---- shift, mask and or on unsigned numbers, bit by bit ----

  function Pow2(k: nat): nat {
    if k == 0 then 1 else 2 * Pow2(k - 1)
  }

  function ShiftLeft(a: nat, k: nat): nat {
    if k == 0 then a else 2 * ShiftLeft(a, k - 1)
  }

  function BitAnd(a: nat, b: nat): nat {
    if a == 0 || b == 0 then 0 else 2 * BitAnd(a / 2, b / 2) + if a % 2 == 1 && b % 2 == 1 then 1 else 0
  }

  function BitOr(a: nat, b: nat): nat {
    if a == 0 then b else if b == 0 then a else 2 * BitOr(a / 2, b / 2) + if a % 2 == 1 || b % 2 == 1 then 1 else 0
  }

  /** `(node << 40) | (local & 0xFFFFFFFFFF)`; node 0 hands out the bare counter. */
  function Pack(node: nat, local: nat): nat {
    if node == 0 then local else BitOr(ShiftLeft(node, LOCAL_BITS), BitAnd(local, LOCAL_MASK))
  }

  lemma {:induction false} ShiftIsProduct(a: nat, k: nat)
    ensures ShiftLeft(a, k) == a * Pow2(k)
  {
    if k > 0 {
      ShiftIsProduct(a, k - 1);
    }
  }

  lemma DivModUnique(x: nat, d: nat, q: nat, r: nat)
    requires d > 0 && r < d && x == d * q + r
    ensures x % d == r
  {
    var e: int := x / d - q;
    assert x == d * (x / d) + x % d;
    assert d * e == d * (x / d) - d * q == r - x % d;
    SmallMultiple(d, e);
  }

  lemma SmallMultiple(d: int, e: int)
    requires d > 0 && -d < d * e < d
    ensures e == 0
  {
  }

  /** Masking with k ones is the remainder modulo 2^k. */
  lemma {:induction false} MaskIsRemainder(a: nat, k: nat)
    ensures Pow2(k) > 0 && BitAnd(a, Pow2(k) - 1) == a % Pow2(k)
  {
    if k > 0 {
      var h, p := a / 2, Pow2(k - 1);
      MaskIsRemainder(h, k - 1);
      MaskStep(a, p);
      assert (Pow2(k) - 1) / 2 == p - 1 && (Pow2(k) - 1) % 2 == 1;
      assert a == 0 ==> a % Pow2(k) == 0;
    }
  }

  lemma MaskStep(a: nat, p: nat)
    requires p > 0
    ensures a % (2 * p) == 2 * ((a / 2) % p) + a % 2
  {
    var h := a / 2;
    assert h == p * (h / p) + h % p;
    assert a == 2 * p * (h / p) + (2 * (h % p) + a % 2);
    DivModUnique(a, 2 * p, h / p, 2 * (h % p) + a % 2);
  }

  /** A field shifted clear of another adds to it under or. */
  lemma {:induction false} OrIsSum(a: nat, b: nat, k: nat)
    requires b < Pow2(k)
    ensures BitOr(ShiftLeft(a, k), b) == ShiftLeft(a, k) + b
  {
    if k > 0 {
      OrIsSum(a, b / 2, k - 1);
    }
  }

  lemma LocalRangeIsPow2()
    ensures Pow2(LOCAL_BITS) == LOCAL_RANGE
  {
    assert Pow2(8) == 0x100 && Pow2(16) == 0x1_0000 && Pow2(24) == 0x100_0000 && Pow2(32) == 0x1_0000_0000;
  }

  /** A packing is the node id times 2^40 plus the counter modulo 2^40, well within 64 bits. */
  lemma PackIsSum(node: nat, local: nat)
    requires 0 < node <= MAX_NODE
    ensures Pack(node, local) == node * LOCAL_RANGE + local % LOCAL_RANGE < UINT64_RANGE
  {
    LocalRangeIsPow2();
    hide Pow2, ShiftLeft, BitAnd, BitOr;
    MaskIsRemainder(local, LOCAL_BITS);
    ShiftIsProduct(node, LOCAL_BITS);
    OrIsSum(node, local % LOCAL_RANGE, LOCAL_BITS);
  }

  // ---- the same expression on machine words ----

  function PackWord(node: bv64, local: bv64): bv64 {
    (node << 40) | (local & 0xFF_FFFF_FFFF)
  }

  /** On 64-bit words the two fields do not overlap and can be read back. */
  lemma PackWordFields(node: bv64, local: bv64)
    requires node <= 1023 && local <= 0xFF_FFFF_FFFF
    ensures PackWord(node, local) == (node << 40) + local
    ensures PackWord(node, local) >> 40 == node
    ensures PackWord(node, local) & 0xFF_FFFF_FFFF == local
  {
  }

  /** So words agree only when both fields do. */
  lemma PackWordInjective(m: bv64, a: bv64, n: bv64, b: bv64)
    requires m <= 1023 && n <= 1023 && a <= 0xFF_FFFF_FFFF && b <= 0xFF_FFFF_FFFF
    requires PackWord(m, a) == PackWord(n, b)
    ensures m == n && a == b
  {
    PackWordFields(m, a);
    PackWordFields(n, b);
    hide PackWord;
  }

  lemma PackWordIncreases(node: bv64, a: bv64, b: bv64)
    requires node <= 1023 && a < b <= 0xFF_FFFF_FFFF
    ensures PackWord(node, a) < PackWord(node, b)
  {
  }

  /** The counter after n further draws, wrapping as `atomic.Uint64` does. */
  function LocalAfter(local: nat, n: nat): Uint64 {
    (local + n) % UINT64_RANGE
  }

  lemma LocalAfterStep(local: Uint64, n: nat)
    ensures LocalAfter(LocalAfter(local, n), 1) == LocalAfter(local, n + 1)
    ensures LocalAfter(local, 0) == local
  {
    var q, r := (local + n) / UINT64_RANGE, (local + n) % UINT64_RANGE;
    assert local + n == UINT64_RANGE * q + r;
    if r + 1 < UINT64_RANGE {
      DivModUnique(local + n + 1, UINT64_RANGE, q, r + 1);
    } else {
      DivModUnique(local + n + 1, UINT64_RANGE, q + 1, 0);
    }
  }

  class Sequencer {
    const nodeId: nat
    var localSeq: Uint64
    var symbolSeq: map<string, nat>

    /** `NewSequencer` is node 0; ids above 1023 make `NewSequencerWithNodeID` panic. */
    constructor (node: nat)
      requires node <= MAX_NODE
      ensures nodeId == node && localSeq == 0 && symbolSeq == map[]
    {
      nodeId, localSeq, symbolSeq := node, 0, map[];
    }

    method NextGlobalSeq() returns (number: nat)
      modifies this`localSeq
      ensures localSeq == LocalAfter(old(localSeq), 1)
      ensures number == Pack(nodeId, localSeq)
    {
      localSeq := (localSeq + 1) % UINT64_RANGE;
      if nodeId == 0 {
        return localSeq;
      }
      return BitOr(ShiftLeft(nodeId, LOCAL_BITS), BitAnd(localSeq, LOCAL_MASK));
    }
  }

  /** Two packings agree only when node and local counter agree. */
  lemma PackInjective(m: nat, a: nat, n: nat, b: nat)
    requires m <= MAX_NODE && n <= MAX_NODE && a < LOCAL_RANGE && b < LOCAL_RANGE
    ensures Pack(m, a) == Pack(n, b) <==> m == n && a == b
    ensures a < b ==> Pack(m, a) < Pack(m, b)
  {
    hide BitOr, BitAnd, ShiftLeft, Pack;
    PackAsSum(m, a);
    PackAsSum(m, b);
    PackAsSum(n, b);
  }

  /** Below 2^40 node 0 fits the same sum. */
  lemma PackAsSum(node: nat, local: nat)
    requires node <= MAX_NODE && local < LOCAL_RANGE
    ensures Pack(node, local) == node * LOCAL_RANGE + local
  {
    hide BitOr, BitAnd, ShiftLeft;
    if node > 0 {
      PackIsSum(node, local);
    }
  }

  // ---- runs of many sequencers drawing in any order ----

  datatype Draw = Draw(node: nat, local: nat, number: nat)

  /** Counters of all nodes, and every number drawn so far, oldest first. */
  datatype Fleet = Fleet(locals: map<nat, nat>, drawn: seq<Draw>)

  function LocalOf(f: Fleet, node: nat): nat {
    if node in f.locals then f.locals[node] else 0
  }

  /** One `NextGlobalSeq` call of the given node; the atomic add is its only effect. */
  function DrawNext(f: Fleet, node: nat): Fleet {
    var l := LocalAfter(LocalOf(f, node), 1);
    Fleet(f.locals[node := l], f.drawn + [Draw(node, l, Pack(node, l))])
  }

  function RunDraws(order: seq<nat>): Fleet {
    if order == [] then Fleet(map[], []) else DrawNext(RunDraws(order[..|order| - 1]), order[|order| - 1])
  }

  function Count(order: seq<nat>, node: nat): nat {
    if order == [] then 0
    else Count(order[..|order| - 1], node) + if order[|order| - 1] == node then 1 else 0
  }

  /** The schedule names legal nodes, and no node draws 2^40 times or more. */
  ghost predicate WithinCapacity(order: seq<nat>) {
    && (forall i :: 0 <= i < |order| ==> order[i] <= MAX_NODE)
    && (forall node :: Count(order, node) < LOCAL_RANGE)
  }

  ghost predicate DrawsTracked(f: Fleet, order: seq<nat>) {
    && |f.drawn| == |order|
    && (forall node :: LocalOf(f, node) == Count(order, node))
    && (forall i :: 0 <= i < |order| ==>
          var d := f.drawn[i];
          d.node == order[i] && 0 < d.local <= LocalOf(f, d.node) && d.number == Pack(d.node, d.local))
    && (forall i, j :: 0 <= i < j < |order| && f.drawn[i].node == f.drawn[j].node ==>
          f.drawn[i].local < f.drawn[j].local)
  }

  lemma CountGrows(order: seq<nat>, node: nat, n: nat)
    ensures Count(order + [node], n) == Count(order, n) + if n == node then 1 else 0
  {
    assert (order + [node])[..|order|] == order;
  }

  lemma DrawKeepsTracked(f: Fleet, order: seq<nat>, node: nat)
    requires DrawsTracked(f, order) && Count(order, node) + 1 < UINT64_RANGE
    ensures DrawsTracked(DrawNext(f, node), order + [node])
  {
    hide Count, Pack;
    var g, all := DrawNext(f, node), order + [node];
    var l := LocalOf(f, node) + 1;
    assert LocalAfter(LocalOf(f, node), 1) == l;
    hide LocalAfter;
    forall n: nat ensures LocalOf(g, n) == Count(all, n) && LocalOf(f, n) <= LocalOf(g, n) {
      CountGrows(order, node, n);
    }
    assert g.drawn == f.drawn + [Draw(node, l, Pack(node, l))];
    forall i | 0 <= i < |all|
      ensures var d := g.drawn[i];
              d.node == all[i] && 0 < d.local <= LocalOf(g, d.node) && d.number == Pack(d.node, d.local)
    {
      if i < |order| {
        assert g.drawn[i] == f.drawn[i] && all[i] == order[i];
      }
    }
  }

  lemma {:induction false} DrawsStayTracked(order: seq<nat>)
    requires WithinCapacity(order)
    ensures DrawsTracked(RunDraws(order), order)
  {
    if order != [] {
      var init, node := order[..|order| - 1], order[|order| - 1];
      assert order == init + [node];
      forall n: nat ensures Count(init, n) < LOCAL_RANGE {
        CountGrows(init, node, n);
      }
      DrawsStayTracked(init);
      hide Count, Pack, DrawsTracked, DrawNext;
      DrawKeepsTracked(RunDraws(init), init, node);
    }
  }

  /** In every such run no number is drawn twice, and one node's numbers strictly increase. */
  lemma SequenceNumbersUnique(order: seq<nat>, i: nat, j: nat)
    requires WithinCapacity(order) && i < j < |order|
    ensures |RunDraws(order).drawn| == |order|
    ensures RunDraws(order).drawn[i].number != RunDraws(order).drawn[j].number
    ensures order[i] == order[j] ==> RunDraws(order).drawn[i].number < RunDraws(order).drawn[j].number
  {
    DrawsStayTracked(order);
    hide Pack;
    var a, b := RunDraws(order).drawn[i], RunDraws(order).drawn[j];
    assert Count(order, a.node) < LOCAL_RANGE && Count(order, b.node) < LOCAL_RANGE;
    PackInjective(a.node, a.local, b.node, b.local);
  }

  // ---- the capacity of one node, exactly ----

  function Repeat(node: nat, n: nat): seq<nat> {
    seq(n, _ => node)
  }

  lemma {:induction false} CountRepeat(node: nat, n: nat)
    requires n < UINT64_RANGE
    ensures var f := RunDraws(Repeat(node, n));
            && LocalOf(f, node) == n && |f.drawn| == n
            && forall i :: 0 <= i < n ==> f.drawn[i] == Draw(node, i + 1, Pack(node, i + 1))
  {
    hide Pack;
    if n > 0 {
      CountRepeat(node, n - 1);
      assert Repeat(node, n)[..n - 1] == Repeat(node, n - 1);
    }
  }

  ghost predicate AllDistinct(drawn: seq<Draw>) {
    forall i, j :: 0 <= i < j < |drawn| ==> drawn[i].number != drawn[j].number
  }

  ghost predicate AllIncrease(drawn: seq<Draw>) {
    forall i, j :: 0 <= i < j < |drawn| ==> drawn[i].number < drawn[j].number
  }

  function Nth(node: nat, i: nat): nat {
    node * LOCAL_RANGE + i % LOCAL_RANGE
  }

  ghost predicate Follow(drawn: seq<Draw>, node: nat) {
    forall i :: 0 <= i < |drawn| ==> drawn[i].number == Nth(node, i + 1)
  }

  lemma NthOrder(node: nat, i: nat, j: nat)
    requires 0 < i < j
    ensures j <= LOCAL_RANGE ==> Nth(node, i) != Nth(node, j)
    ensures j < LOCAL_RANGE ==> Nth(node, i) < Nth(node, j)
  {
  }

  lemma NthWraps(node: nat)
    ensures Nth(node, LOCAL_RANGE - 1) > Nth(node, LOCAL_RANGE)
    ensures Nth(node, LOCAL_RANGE + 1) == Nth(node, 1)
  {
  }

  lemma WithinRange(drawn: seq<Draw>, node: nat)
    requires Follow(drawn, node)
    ensures |drawn| <= LOCAL_RANGE ==> AllDistinct(drawn)
    ensures |drawn| < LOCAL_RANGE ==> AllIncrease(drawn)
  {
    hide Nth;
    forall i, j | 0 <= i < j < |drawn|
      ensures |drawn| <= LOCAL_RANGE ==> drawn[i].number != drawn[j].number
      ensures |drawn| < LOCAL_RANGE ==> drawn[i].number < drawn[j].number
    {
      NthOrder(node, i + 1, j + 1);
    }
  }

  lemma BeyondRange(drawn: seq<Draw>, node: nat)
    requires Follow(drawn, node)
    ensures |drawn| >= LOCAL_RANGE ==> !AllIncrease(drawn)
    ensures |drawn| > LOCAL_RANGE ==> drawn[0].number == drawn[LOCAL_RANGE].number && !AllDistinct(drawn)
  {
    NthWraps(node);
    hide Nth;
    var r := LOCAL_RANGE;
    if |drawn| >= r {
      assert drawn[r - 2].number > drawn[r - 1].number;
    }
    if |drawn| > r {
      assert drawn[0].number == drawn[r].number;
    }
  }

  /** A node's numbers are distinct for exactly its first 2^40 draws, and increase for exactly the draws before
      that last one, which drops back to the bare node field. Draw 2^40 + 1 repeats draw 1. */
  lemma CapacityIsExact(node: nat, n: nat)
    requires 0 < node <= MAX_NODE && n < UINT64_RANGE
    ensures AllDistinct(RunDraws(Repeat(node, n)).drawn) <==> n <= LOCAL_RANGE
    ensures AllIncrease(RunDraws(Repeat(node, n)).drawn) <==> n < LOCAL_RANGE
  {
    hide Pack, RunDraws, AllDistinct, AllIncrease;
    var drawn := RunDraws(Repeat(node, n)).drawn;
    CountRepeat(node, n);
    forall i | 0 <= i < n ensures drawn[i].number == Nth(node, i + 1) {
      PackIsSum(node, i + 1);
    }
    hide Nth;
    WithinRange(drawn, node);
    BeyondRange(drawn, node);
  }
}
