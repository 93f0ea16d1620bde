/** 64-bit signed amounts and prices (`PriceInNano`, `QuantityInNano`). */
module Int64s {
  const INT64_MAX: int := 0x7FFF_FFFF_FFFF_FFFF
  const INT64_MIN: int := -0x8000_0000_0000_0000

  type Int64 = x: int | -0x8000_0000_0000_0000 <= x <= 0x7FFF_FFFF_FFFF_FFFF

  predicate IsInt64(x: int) {
    INT64_MIN <= x <= INT64_MAX
  }

  /** Two's complement wrap-around of an int64 addition. */
  function Wrap64(x: int): Int64 {
    (x + 0x8000_0000_0000_0000) % 0x1_0000_0000_0000_0000 - 0x8000_0000_0000_0000
  }

  lemma Wrap64Absorbs(a: int, b: int)
    ensures Wrap64(Wrap64(a) + b) == Wrap64(a + b)
    ensures Wrap64(a) == a <==> IsInt64(a)
  {
  }

  function Min(a: Int64, b: Int64): Int64 {
    if a < b then a else b
  }
}

/** The price-ordered map of the order book: a skip list taken as the list of its elements in `Compare`
    order, each holding one price and the queue of orders resting there (biz/service/orderbook.go). */
module Ladders {
  import opened Int64s

  datatype Node<+V> = Node(key: Int64, value: V)

  type Ladder<T> = seq<Node<seq<T>>>

  /** `Compare(a, b) < 0` of the descending or ascending comparator. */
  predicate Before(desc: bool, a: Int64, b: Int64) {
    if desc then a > b else a < b
  }

  predicate Sorted<V>(desc: bool, l: seq<Node<V>>) {
    forall i, j :: 0 <= i < j < |l| ==> Before(desc, l[i].key, l[j].key)
  }

  predicate Has<V>(l: seq<Node<V>>, key: Int64) {
    exists i :: 0 <= i < |l| && l[i].key == key
  }

  function Get<V>(l: seq<Node<V>>, key: Int64): V
    requires Has(l, key)
  {
    if l[0].key == key then l[0].value else Get(l[1..], key)
  }

  function Put<V>(desc: bool, l: seq<Node<V>>, key: Int64, v: V): seq<Node<V>> {
    if l == [] || Before(desc, key, l[0].key) then [Node(key, v)] + l
    else if l[0].key == key then [Node(key, v)] + l[1..]
    else [l[0]] + Put(desc, l[1..], key, v)
  }

  function Drop<V>(l: seq<Node<V>>, key: Int64): seq<Node<V>> {
    if l == [] then []
    else if l[0].key == key then l[1..]
    else [l[0]] + Drop(l[1..], key)
  }

  /** All queued entries, best price first and within a price in queue order. */
  function Flat<T>(l: Ladder<T>): seq<T> {
    if l == [] then [] else l[0].value + Flat(l[1..])
  }

  /** The price of each entry of `Flat(l)`. */
  function Keys<T>(l: Ladder<T>): (ks: seq<Int64>)
    ensures |ks| == |Flat(l)|
  {
    if l == [] then [] else seq(|l[0].value|, _ => l[0].key) + Keys(l[1..])
  }

  /** Number of leading prices that a newcomer at price p has to queue behind. */
  function Ahead(desc: bool, prices: seq<Int64>, p: Int64): (k: nat)
    ensures k <= |prices|
  {
    if prices == [] || Before(desc, p, prices[0]) then 0 else 1 + Ahead(desc, prices[1..], p)
  }

  lemma {:induction false} PutKeepsSorted<V>(desc: bool, l: seq<Node<V>>, key: Int64, v: V)
    requires Sorted(desc, l)
    ensures Sorted(desc, Put(desc, l, key, v))
    ensures forall n <- Put(desc, l, key, v) :: n == Node(key, v) || n in l
  {
    if l != [] && !Before(desc, key, l[0].key) && l[0].key != key {
      PutKeepsSorted(desc, l[1..], key, v);
      var r := Put(desc, l[1..], key, v);
      forall i | 0 <= i < |r| ensures Before(desc, l[0].key, r[i].key) {
        assert r[i] in r;
      }
    }
  }

  lemma {:induction false} DropKeepsSorted<V>(desc: bool, l: seq<Node<V>>, key: Int64)
    requires Sorted(desc, l)
    ensures Sorted(desc, Drop(l, key))
    ensures forall n <- Drop(l, key) :: n in l
  {
    if l != [] && l[0].key != key {
      DropKeepsSorted(desc, l[1..], key);
      var r := Drop(l[1..], key);
      forall i | 0 <= i < |r| ensures Before(desc, l[0].key, r[i].key) {
        assert r[i] in r;
      }
    }
  }

  lemma {:induction false} AheadOfRun(desc: bool, n: nat, key: Int64, rest: seq<Int64>, p: Int64)
    ensures Ahead(desc, seq(n, _ => key) + rest, p) == if Before(desc, p, key) && n > 0 then 0 else n + Ahead(desc, rest, p)
  {
    var run := seq(n, _ => key);
    if n == 0 {
      assert run + rest == rest;
    } else {
      assert (run + rest)[1..] == seq(n - 1, _ => key) + rest;
      AheadOfRun(desc, n - 1, key, rest, p);
    }
  }

  lemma {:induction false} AheadOfSorted<T>(desc: bool, l: Ladder<T>, p: Int64)
    requires forall i :: 0 <= i < |l| ==> Before(desc, p, l[i].key) && |l[i].value| > 0
    ensures Ahead(desc, Keys(l), p) == 0
  {
    if l != [] {
      AheadOfRun(desc, |l[0].value|, l[0].key, Keys(l[1..]), p);
    }
  }

  lemma FlatCons<T>(n: Node<seq<T>>, l: Ladder<T>)
    ensures Flat([n] + l) == n.value + Flat(l)
    ensures Keys([n] + l) == seq(|n.value|, _ => n.key) + Keys(l)
  {
    assert ([n] + l)[1..] == l;
  }

  lemma HasTail<V>(l: seq<Node<V>>, key: Int64)
    requires l != [] && l[0].key != key
    ensures Has(l, key) <==> Has(l[1..], key)
    ensures Has(l, key) ==> Get(l, key) == Get(l[1..], key)
  {
    assert forall i :: 0 < i < |l| ==> l[i] == l[1..][i - 1];
  }

  /** Appending to the queue of a price, creating it when missing, puts the newcomer behind everything
      not worse and ahead of everything worse. */
  lemma {:induction false} FlatOfAppend<T>(desc: bool, l: Ladder<T>, key: Int64, e: T)
    requires Sorted(desc, l) && forall i :: 0 <= i < |l| ==> |l[i].value| > 0
    ensures var q := if Has(l, key) then Get(l, key) else [];
            var k := Ahead(desc, Keys(l), key);
            Flat(Put(desc, l, key, q + [e])) == Flat(l)[..k] + [e] + Flat(l)[k..]
  {
    if l == [] {
      assert Put(desc, l, key, [e]) == [Node(key, [e])];
    } else if l[0].key == key {
      AppendAtFront(desc, l, key, e);
    } else if Before(desc, key, l[0].key) {
      AppendAhead(desc, l, key, e);
    } else {
      HasTail(l, key);
      FlatOfAppend(desc, l[1..], key, e);
      AppendBehind(desc, l, key, if Has(l, key) then Get(l, key) else [], e);
    }
  }

  lemma AppendBehind<T>(desc: bool, l: Ladder<T>, key: Int64, q: seq<T>, e: T)
    requires l != [] && l[0].key != key && !Before(desc, key, l[0].key)
    requires var t := l[1..];
             var k := Ahead(desc, Keys(t), key);
             Flat(Put(desc, t, key, q + [e])) == Flat(t)[..k] + [e] + Flat(t)[k..]
    ensures var k := Ahead(desc, Keys(l), key);
            Flat(Put(desc, l, key, q + [e])) == Flat(l)[..k] + [e] + Flat(l)[k..]
  {
    hide Flat, Put, Keys, Ahead, Before;
    var t := l[1..];
    PutBehind(desc, l, key, q + [e]);
    FlatCons(l[0], t);
    FlatCons(l[0], Put(desc, t, key, q + [e]));
    AheadOfRun(desc, |l[0].value|, l[0].key, Keys(t), key);
    InsertBehind(l[0].value, Flat(t), e, Ahead(desc, Keys(t), key));
  }

  lemma PutBehind<V>(desc: bool, l: seq<Node<V>>, key: Int64, v: V)
    requires l != [] && l[0].key != key && !Before(desc, key, l[0].key)
    ensures l == [l[0]] + l[1..] && Put(desc, l, key, v) == [l[0]] + Put(desc, l[1..], key, v)
  {
  }

  lemma AppendAhead<T>(desc: bool, l: Ladder<T>, key: Int64, e: T)
    requires Sorted(desc, l) && forall i :: 0 <= i < |l| ==> |l[i].value| > 0
    requires l != [] && Before(desc, key, l[0].key)
    ensures !Has(l, key) && Ahead(desc, Keys(l), key) == 0
    ensures Flat(Put(desc, l, key, [] + [e])) == Flat(l)[..0] + [e] + Flat(l)[0..]
  {
    AheadOfSorted(desc, l, key);
    FlatCons(Node(key, [] + [e]), l);
  }

  lemma AppendAtFront<T>(desc: bool, l: Ladder<T>, key: Int64, e: T)
    requires Sorted(desc, l) && forall i :: 0 <= i < |l| ==> |l[i].value| > 0
    requires l != [] && l[0].key == key
    ensures var q := l[0].value;
            Flat(Put(desc, l, key, q + [e])) == Flat(l)[..|q|] + [e] + Flat(l)[|q|..]
    ensures Ahead(desc, Keys(l), key) == |l[0].value|
  {
    var q, t := l[0].value, l[1..];
    AheadOfRun(desc, |q|, key, Keys(t), key);
    AheadOfSorted(desc, t, key);
    FlatCons(Node(key, q + [e]), t);
    assert Flat(l)[..|q|] == q && Flat(l)[|q|..] == Flat(t);
  }

  /** Rewriting or removing a present price touches that node alone. */
  lemma {:induction false} SplitAt<V>(desc: bool, l: seq<Node<V>>, key: Int64, v: V)
    returns (before: seq<Node<V>>, after: seq<Node<V>>)
    requires Sorted(desc, l) && Has(l, key)
    ensures l == before + [Node(key, Get(l, key))] + after
    ensures Put(desc, l, key, v) == before + [Node(key, v)] + after
    ensures Drop(l, key) == before + after
    ensures forall n <- before + after :: n.key != key
  {
    if l[0].key == key {
      before, after := [], l[1..];
    } else {
      SplitBehind(desc, l, key, v);
      var b;
      b, after := SplitAt(desc, l[1..], key, v);
      hide Put, Drop, Get, Has, Sorted, Before;
      before := [l[0]] + b;
      Reassociate([l[0]], b, [Node(key, Get(l, key))], after);
      Reassociate([l[0]], b, [Node(key, v)], after);
      Reassociate([l[0]], b, [], after);
      assert before + after == [l[0]] + (b + after);
    }
  }

  /** A price behind the first: reading, rewriting and removing go on in the tail. */
  lemma SplitBehind<V>(desc: bool, l: seq<Node<V>>, key: Int64, v: V)
    requires Sorted(desc, l) && Has(l, key) && l[0].key != key
    ensures l == [l[0]] + l[1..] && Sorted(desc, l[1..]) && Has(l[1..], key) && Get(l, key) == Get(l[1..], key)
    ensures Put(desc, l, key, v) == [l[0]] + Put(desc, l[1..], key, v) && Drop(l, key) == [l[0]] + Drop(l[1..], key)
  {
    HasTail(l, key);
    var i :| 0 <= i < |l| && l[i].key == key;
    assert Before(desc, l[0].key, l[i].key);
  }

  lemma {:induction false} FlatConcat<T>(a: Ladder<T>, b: Ladder<T>)
    ensures Flat(a + b) == Flat(a) + Flat(b)
  {
    if a == [] {
      assert a + b == b;
    } else {
      assert (a + b)[1..] == a[1..] + b;
      FlatConcat(a[1..], b);
    }
  }

  lemma FlatAround<T>(before: Ladder<T>, key: Int64, q: seq<T>, after: Ladder<T>)
    ensures Flat(before + [Node(key, q)] + after) == Flat(before) + q + Flat(after)
  {
    FlatConcat(before + [Node(key, q)], after);
    FlatConcat(before, [Node(key, q)]);
    assert Flat([Node(key, q)]) == q;
  }

  lemma InsertBehind<T>(a: seq<T>, f: seq<T>, e: T, j: nat)
    requires j <= |f|
    ensures a + (f[..j] + [e] + f[j..]) == (a + f)[..|a| + j] + [e] + (a + f)[|a| + j..]
  {
    assert (a + f)[..|a| + j] == a + f[..j];
    assert (a + f)[|a| + j..] == f[j..];
  }

  lemma TailConcat<T>(a: seq<T>, b: seq<T>)
    requires a != []
    ensures (a + b)[0] == a[0] && (a + b)[1..] == a[1..] + b
  {
  }

  lemma Reassociate<T>(a: seq<T>, b: seq<T>, c: seq<T>, d: seq<T>)
    ensures a + (b + c + d) == (a + b) + c + d
    ensures a + (b + c) == (a + b) + c
  {
  }
}
