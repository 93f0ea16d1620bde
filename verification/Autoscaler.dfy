/** Splitting hot symbols out of partitions and merging cold ones
    (biz/service/partition_autoscaler.go, biz/model/partition.go). */
module Autoscaling {
  datatype Partition = Partition(id: string, symbols: seq<string>, workers: seq<string>)

  datatype Table = Table(symbolToPartition: map<string, seq<string>>, partitions: map<string, Partition>)

  const HOT_ABOVE := 800
  const COLD_BELOW := 5

  /** Loads as collected; a symbol without a reading counts as 0. */
  type Loads = map<string, int>

  /** The worker pool with its loads, and the clock text appended to the id of a partition split from
      another for a symbol. */
  datatype Surroundings = Surroundings(workers: seq<string>, load: string -> int, stamp: (string, string) -> string)

  predicate Hot(loads: Loads, s: string) {
    s in loads && loads[s] > HOT_ABOVE
  }

  predicate Cold(loads: Loads, s: string) {
    s in loads && loads[s] < COLD_BELOW
  }

  function HotIn(symbols: seq<string>, loads: Loads): seq<string> {
    if symbols == [] then []
    else HotIn(symbols[..|symbols| - 1], loads) + if Hot(loads, symbols[|symbols| - 1]) then [symbols[|symbols| - 1]] else []
  }

  /** The elements that are not in a set, in order. */
  function Except(list: seq<string>, gone: set<string>): seq<string> {
    if list == [] then []
    else Except(list[..|list| - 1], gone) + if list[|list| - 1] in gone then [] else [list[|list| - 1]]
  }

  function Elements(list: seq<string>): set<string> {
    set s <- list
  }

  /** The first worker of least load, or no worker. */
  function IdleWorker(workers: seq<string>, load: string -> int): string {
    if workers == [] then ""
    else if |workers| == 1 then workers[0]
    else
      var best, w := IdleWorker(workers[..|workers| - 1], load), workers[|workers| - 1];
      if load(w) < load(best) then w else best
  }

  lemma {:induction false} IdleWorkerIsFirstLeast(workers: seq<string>, load: string -> int) returns (i: nat)
    requires workers != []
    ensures i < |workers| && workers[i] == IdleWorker(workers, load)
    ensures forall j :: 0 <= j < |workers| ==> load(workers[i]) <= load(workers[j])
    ensures forall j :: 0 <= j < i ==> load(workers[i]) < load(workers[j])
  {
    if |workers| == 1 {
      i := 0;
    } else {
      i := IdleWorkerIsFirstLeast(workers[..|workers| - 1], load);
      if load(workers[|workers| - 1]) < load(workers[i]) {
        i := |workers| - 1;
      }
    }
  }

  function HotId(env: Surroundings, pid: string, s: string): string {
    pid + "_hot_" + s + "_" + env.stamp(pid, s)
  }

  function ColdId(stamp: string): string {
    "cold_merge_" + stamp
  }

  function PartitionsOf(t: Table, s: string): seq<string> {
    if s in t.symbolToPartition then t.symbolToPartition[s] else []
  }

  function WithoutSymbols(t: Table, pid: string, gone: set<string>): Table
    requires pid in t.partitions
  {
    t.(partitions := t.partitions[pid := t.partitions[pid].(symbols := Except(t.partitions[pid].symbols, gone))])
  }

  /** One symbol moved from a partition's id to a partition of its own. */
  function Created(t: Table, env: Surroundings, pid: string, s: string): Table {
    var id := HotId(env, pid, s);
    Table(t.symbolToPartition[s := Except(PartitionsOf(t, s), {pid}) + [id]],
          t.partitions[id := Partition(id, [s], [IdleWorker(env.workers, env.load)])])
  }

  function CreatedAll(t: Table, env: Surroundings, pid: string, hot: seq<string>): Table {
    if hot == [] then t else Created(CreatedAll(t, env, pid, hot[..|hot| - 1]), env, pid, hot[|hot| - 1])
  }

  /** One turn of the loop over the partitions. */
  function Visited(t: Table, env: Surroundings, loads: Loads, pid: string): Table {
    if pid !in t.partitions then t
    else
      var hot := HotIn(t.partitions[pid].symbols, loads);
      if hot == [] then t else CreatedAll(WithoutSymbols(t, pid, Elements(hot)), env, pid, hot)
  }

  predicate Splits(t: Table, loads: Loads, pid: string) {
    pid in t.partitions && HotIn(t.partitions[pid].symbols, loads) != []
  }

  /** The partitions visited in some order; Go leaves open whether partitions inserted on the way are. */
  function SplitAll(t: Table, env: Surroundings, loads: Loads, visits: seq<string>): Table {
    if visits == [] then t
    else Visited(SplitAll(t, env, loads, visits[..|visits| - 1]), env, loads, visits[|visits| - 1])
  }

  /** Whether some visit found a hot symbol. */
  predicate SplitNeeded(t: Table, env: Surroundings, loads: Loads, visits: seq<string>) {
    visits != [] &&
    var before := visits[..|visits| - 1];
    SplitNeeded(t, env, loads, before) || Splits(SplitAll(t, env, loads, before), loads, visits[|visits| - 1])
  }

  function Pointed(m: map<string, seq<string>>, cold: seq<string>, id: string): map<string, seq<string>> {
    if cold == [] then m else Pointed(m, cold[..|cold| - 1], id)[cold[|cold| - 1] := [id]]
  }

  /** The cold symbols gathered in one new partition and taken out of all others, by their id field. */
  function Merged(t: Table, cold: seq<string>, id: string, worker: string): Table {
    Table(Pointed(t.symbolToPartition, cold, id),
          map p <- t.partitions.Keys + {id} ::
            if p == id then Partition(id, cold, [worker])
            else if t.partitions[p].id == id then t.partitions[p]
            else t.partitions[p].(symbols := Except(t.partitions[p].symbols, Elements(cold))))
  }

  // ---- the table object and the scaler's steps ----

  class PartitionTable {
    var symbolToPartition: map<string, seq<string>>
    var partitions: map<string, Partition>

    function Abs(): Table
      reads this
    {
      Table(symbolToPartition, partitions)
    }

    constructor (t: Table)
      ensures Abs() == t
    {
      symbolToPartition, partitions := t.symbolToPartition, t.partitions;
    }
  }

  method SelectIdleWorker(workers: seq<string>, load: string -> int) returns (w: string)
    ensures w == IdleWorker(workers, load)
  {
    if |workers| == 0 {
      return "";
    }
    var minLoad, minWorker := load(workers[0]), workers[0];
    var i := 1;
    while i < |workers|
      invariant 1 <= i <= |workers| && minLoad == load(minWorker) && minWorker == IdleWorker(workers[..i], load)
    {
      assert workers[..i + 1][..i] == workers[..i];
      if load(workers[i]) < minLoad {
        minLoad, minWorker := load(workers[i]), workers[i];
      }
      i := i + 1;
    }
    assert workers[..i] == workers;
    return minWorker;
  }

  method FindHotSymbols(symbols: seq<string>, loads: Loads) returns (hot: seq<string>)
    ensures hot == HotIn(symbols, loads)
  {
    hot := [];
    var i := 0;
    while i < |symbols|
      invariant 0 <= i <= |symbols| && hot == HotIn(symbols[..i], loads)
    {
      assert symbols[..i + 1][..i] == symbols[..i];
      if symbols[i] in loads && loads[symbols[i]] > HOT_ABOVE {
        hot := hot + [symbols[i]];
      }
      i := i + 1;
    }
    assert symbols[..i] == symbols;
  }

  /** The loop shared by the three places that drop elements from a list. */
  method Remaining(list: seq<string>, gone: set<string>) returns (remain: seq<string>)
    ensures remain == Except(list, gone)
  {
    remain := [];
    var i := 0;
    while i < |list|
      invariant 0 <= i <= |list| && remain == Except(list[..i], gone)
    {
      assert list[..i + 1][..i] == list[..i];
      if list[i] !in gone {
        remain := remain + [list[i]];
      }
      i := i + 1;
    }
    assert list[..i] == list;
  }

  method RemoveSymbolsFromPartition(pt: PartitionTable, pid: string, hot: seq<string>)
    requires pid in pt.partitions
    modifies pt
    ensures pt.Abs() == WithoutSymbols(old(pt.Abs()), pid, Elements(hot))
  {
    var remain := Remaining(pt.partitions[pid].symbols, Elements(hot));
    pt.partitions := pt.partitions[pid := pt.partitions[pid].(symbols := remain)];
  }

  method CreateHotPartition(pt: PartitionTable, env: Surroundings, pid: string, s: string)
    modifies pt
    ensures pt.Abs() == Created(old(pt.Abs()), env, pid, s)
  {
    var idleWorker := SelectIdleWorker(env.workers, env.load);
    var id := HotId(env, pid, s);
    pt.partitions := pt.partitions[id := Partition(id, [s], [idleWorker])];
    var newList := Remaining(if s in pt.symbolToPartition then pt.symbolToPartition[s] else [], {pid});
    pt.symbolToPartition := pt.symbolToPartition[s := newList + [id]];
  }

  method SplitHotSymbols(pt: PartitionTable, env: Surroundings, loads: Loads, visits: seq<string>) returns (needUpdate: bool)
    modifies pt
    ensures pt.Abs() == SplitAll(old(pt.Abs()), env, loads, visits)
    ensures needUpdate <==> SplitNeeded(old(pt.Abs()), env, loads, visits)
  {
    hide Visited, Splits;
    needUpdate := false;
    ghost var t := pt.Abs();
    var i := 0;
    while i < |visits|
      invariant 0 <= i <= |visits| && pt.Abs() == SplitAll(t, env, loads, visits[..i])
      invariant needUpdate <==> SplitNeeded(t, env, loads, visits[..i])
    {
      assert visits[..i + 1][..i] == visits[..i];
      var split := Visit(pt, env, loads, visits[i]);
      needUpdate := needUpdate || split;
      i := i + 1;
    }
    assert visits[..i] == visits;
  }

  /** The body of the loop over the partitions. */
  method Visit(pt: PartitionTable, env: Surroundings, loads: Loads, pid: string) returns (split: bool)
    modifies pt
    ensures pt.Abs() == Visited(old(pt.Abs()), env, loads, pid)
    ensures split <==> Splits(old(pt.Abs()), loads, pid)
  {
    hide CreatedAll, HotIn, WithoutSymbols;
    if pid !in pt.partitions {
      return false;
    }
    var hot := FindHotSymbols(pt.partitions[pid].symbols, loads);
    if |hot| == 0 {
      return false;
    }
    RemoveSymbolsFromPartition(pt, pid, hot);
    CreateHotPartitions(pt, env, pid, hot);
    return true;
  }

  method CreateHotPartitions(pt: PartitionTable, env: Surroundings, pid: string, hot: seq<string>)
    modifies pt
    ensures pt.Abs() == CreatedAll(old(pt.Abs()), env, pid, hot)
  {
    hide Created;
    var i := 0;
    while i < |hot|
      invariant 0 <= i <= |hot| && pt.Abs() == CreatedAll(old(pt.Abs()), env, pid, hot[..i])
    {
      assert hot[..i + 1][..i] == hot[..i];
      CreateHotPartition(pt, env, pid, hot[i]);
      i := i + 1;
    }
    assert hot[..i] == hot;
  }

  ghost predicate ListsCold(cold: seq<string>, loads: Loads) {
    forall s: string :: s in cold <==> Cold(loads, s)
  }

  /** The loads are read in any order, so the new partition lists the cold symbols in any order. */
  method CollectCold(loads: Loads) returns (cold: seq<string>)
    ensures ListsCold(cold, loads) && |cold| == |set s <- loads | Cold(loads, s)|
  {
    cold := [];
    var rest := loads.Keys;
    ghost var seen: set<string> := {};
    while rest != {}
      invariant rest <= loads.Keys && seen == (set s <- loads.Keys - rest | Cold(loads, s))
      invariant |cold| == |seen| && forall s: string :: s in cold <==> s in seen
      decreases rest
    {
      var s :| s in rest;
      rest := rest - {s};
      if loads[s] < COLD_BELOW {
        assert s !in seen;
        cold := cold + [s];
        seen := seen + {s};
      }
    }
    assert seen == (set s <- loads | Cold(loads, s));
  }

  method MergeColdSymbols(pt: PartitionTable, env: Surroundings, loads: Loads, stamp: string)
    returns (needUpdate: bool, ghost cold: seq<string>)
    modifies pt
    ensures ListsCold(cold, loads) && (needUpdate <==> |set s <- loads | Cold(loads, s)| > 1)
    ensures pt.Abs() == if needUpdate then Merged(old(pt.Abs()), cold, ColdId(stamp), IdleWorker(env.workers, env.load)) else old(pt.Abs())
  {
    hide Except, IdleWorker, Pointed, ListsCold;
    var coldSymbols := CollectCold(loads);
    cold := coldSymbols;
    if |coldSymbols| <= 1 {
      return false, cold;
    }
    var idleWorker := SelectIdleWorker(env.workers, env.load);
    var id := ColdId(stamp);
    var coldSet := Elements(coldSymbols);
    ghost var t := pt.Abs();
    pt.partitions := pt.partitions[id := Partition(id, coldSymbols, [idleWorker])];
    PointToPartition(pt, coldSymbols, id);
    TrimOthers(pt, id, coldSet);
    assert pt.partitions == Merged(t, cold, id, idleWorker).partitions;
    return true, cold;
  }

  method PointToPartition(pt: PartitionTable, cold: seq<string>, id: string)
    modifies pt`symbolToPartition
    ensures pt.symbolToPartition == Pointed(old(pt.symbolToPartition), cold, id)
  {
    var i := 0;
    while i < |cold|
      invariant 0 <= i <= |cold| && pt.symbolToPartition == Pointed(old(pt.symbolToPartition), cold[..i], id)
    {
      assert cold[..i + 1][..i] == cold[..i];
      pt.symbolToPartition := pt.symbolToPartition[cold[i] := [id]];
      i := i + 1;
    }
    assert cold[..i] == cold;
  }

  /** The last loop of the merge, over the partitions in any order. */
  method TrimOthers(pt: PartitionTable, id: string, coldSet: set<string>)
    modifies pt`partitions
    ensures pt.partitions.Keys == old(pt.partitions).Keys
    ensures forall k <- pt.partitions :: pt.partitions[k] ==
              if old(pt.partitions)[k].id == id then old(pt.partitions)[k]
              else old(pt.partitions)[k].(symbols := Except(old(pt.partitions)[k].symbols, coldSet))
  {
    var rest := pt.partitions.Keys;
    while rest != {}
      invariant rest <= pt.partitions.Keys == old(pt.partitions).Keys
      invariant forall k <- rest :: pt.partitions[k] == old(pt.partitions)[k]
      invariant forall k <- pt.partitions.Keys - rest :: pt.partitions[k] ==
                  if old(pt.partitions)[k].id == id then old(pt.partitions)[k]
                  else old(pt.partitions)[k].(symbols := Except(old(pt.partitions)[k].symbols, coldSet))
      decreases rest
    {
      var k :| k in rest;
      rest := rest - {k};
      var p := pt.partitions[k];
      if p.id != id {
        var remain := Remaining(p.symbols, coldSet);
        pt.partitions := pt.partitions[k := p.(symbols := remain)];
      }
    }
  }
}

/** What splitting and merging keep: the two directions of the partition table stay inverse to each other
    and no symbol loses its last partition. */
module AutoscalingSafety {
  import opened Autoscaling

  predicate Lists(t: Table, s: string, pid: string) {
    pid in PartitionsOf(t, s)
  }

  predicate Holds(t: Table, s: string, pid: string) {
    pid in t.partitions && s in t.partitions[pid].symbols
  }

  ghost predicate Inverse(t: Table) {
    forall s: string, pid: string :: Lists(t, s, pid) <==> Holds(t, s, pid)
  }

  ghost predicate Keyed(t: Table) {
    forall k <- t.partitions :: t.partitions[k].id == k
  }

  ghost predicate Homed(t: Table, s: string) {
    exists pid: string :: Holds(t, s, pid)
  }

  lemma {:induction false} ExceptMembers(list: seq<string>, gone: set<string>, x: string)
    ensures x in Except(list, gone) <==> x in list && x !in gone
  {
    if list != [] {
      ExceptMembers(list[..|list| - 1], gone, x);
      assert list == list[..|list| - 1] + [list[|list| - 1]];
    }
  }

  lemma {:induction false} HotMembers(symbols: seq<string>, loads: Loads, x: string)
    ensures x in HotIn(symbols, loads) <==> x in symbols && Hot(loads, x)
  {
    if symbols != [] {
      HotMembers(symbols[..|symbols| - 1], loads, x);
      assert symbols == symbols[..|symbols| - 1] + [symbols[|symbols| - 1]];
    }
  }

  lemma {:induction false} PointedAt(m: map<string, seq<string>>, cold: seq<string>, id: string, s: string)
    ensures s in Pointed(m, cold, id) <==> s in m || s in cold
    ensures s in cold ==> Pointed(m, cold, id)[s] == [id]
    ensures s in m && s !in cold ==> Pointed(m, cold, id)[s] == m[s]
  {
    if cold != [] {
      PointedAt(m, cold[..|cold| - 1], id, s);
      assert cold == cold[..|cold| - 1] + [cold[|cold| - 1]];
    }
  }

  // ---- splitting ----

  /** Between taking symbols out of a partition and giving each its own: the index still sends the pending
      ones to the partition, and is exact otherwise. */
  ghost predicate Pending(t: Table, pid: string, pending: set<string>) {
    && (forall s: string, q: string :: Holds(t, s, q) ==> Lists(t, s, q))
    && (forall s: string, q: string :: Lists(t, s, q) ==> Holds(t, s, q) || (q == pid && s in pending))
    && (forall s <- pending :: !Holds(t, s, pid))
  }

  /** The id of the new partition is unused, or used by a partition that holds at most this symbol. */
  predicate Free(t: Table, env: Surroundings, pid: string, s: string) {
    var id := HotId(env, pid, s);
    id in t.partitions ==> forall x <- t.partitions[id].symbols :: x == s
  }

  lemma CreatedHolds(t: Table, env: Surroundings, pid: string, s: string, x: string, q: string)
    ensures Holds(Created(t, env, pid, s), x, q) <==> if q == HotId(env, pid, s) then x == s else Holds(t, x, q)
    ensures Lists(Created(t, env, pid, s), x, q) <==>
              if x == s then q == HotId(env, pid, s) || (q != pid && Lists(t, s, q)) else Lists(t, x, q)
  {
    hide HotId, IdleWorker, Except;
    ExceptMembers(PartitionsOf(t, s), {pid}, q);
  }

  lemma NewIdDiffers(env: Surroundings, pid: string, s: string)
    ensures HotId(env, pid, s) != pid
  {
    assert |HotId(env, pid, s)| > |pid|;
  }

  /** Creating a partition keeps the table exact if and only if its id is free. */
  lemma CreateExact(t: Table, env: Surroundings, pid: string, s: string, pending: set<string>)
    requires Pending(t, pid, pending) && !Holds(t, s, pid)
    ensures Pending(Created(t, env, pid, s), pid, pending - {s}) <==> Free(t, env, pid, s)
  {
    var u, id := Created(t, env, pid, s), HotId(env, pid, s);
    NewIdDiffers(env, pid, s);
    forall x: string, q: string
      ensures Holds(u, x, q) <==> if q == id then x == s else Holds(t, x, q)
      ensures Lists(u, x, q) <==> if x == s then q == id || (q != pid && Lists(t, s, q)) else Lists(t, x, q)
    {
      CreatedHolds(t, env, pid, s, x, q);
    }
    hide Created, HotId;
    if id in t.partitions {
      assert forall x <- t.partitions[id].symbols :: Holds(t, x, id);
      if !Free(t, env, pid, s) {
        var x :| x in t.partitions[id].symbols && x != s;
        assert Lists(u, x, id) && !Holds(u, x, id);
      }
    }
  }

  lemma CreateHomes(t: Table, env: Surroundings, pid: string, s: string, x: string)
    requires Free(t, env, pid, s)
    ensures Homed(Created(t, env, pid, s), x) <==> Homed(t, x) || x == s
  {
    var u, id := Created(t, env, pid, s), HotId(env, pid, s);
    forall q: string ensures Holds(u, x, q) <==> if q == id then x == s else Holds(t, x, q) {
      CreatedHolds(t, env, pid, s, x, q);
    }
    hide Created, HotId;
    if x == s {
      assert Holds(u, s, id);
    } else if Homed(t, x) {
      var q :| Holds(t, x, q);
      assert q != id && Holds(u, x, q);
    }
  }

  /** Every id made on the way is free when it is made. */
  ghost predicate FreeAll(t: Table, env: Surroundings, pid: string, hot: seq<string>) {
    hot != [] ==>
      var before := hot[..|hot| - 1];
      FreeAll(t, env, pid, before) && Free(CreatedAll(t, env, pid, before), env, pid, hot[|hot| - 1])
  }

  lemma {:induction false} CreateAllExact(t: Table, env: Surroundings, pid: string, hot: seq<string>, pending: set<string>)
    requires Pending(t, pid, pending) && FreeAll(t, env, pid, hot) && forall s <- hot :: !Holds(t, s, pid)
    ensures Pending(CreatedAll(t, env, pid, hot), pid, pending - Elements(hot))
    ensures forall s: string :: Holds(CreatedAll(t, env, pid, hot), s, pid) <==> Holds(t, s, pid)
    ensures forall x: string :: Homed(CreatedAll(t, env, pid, hot), x) <==> Homed(t, x) || x in hot
  {
    if hot == [] {
      assert pending - Elements(hot) == pending;
    } else {
      var before, s := hot[..|hot| - 1], hot[|hot| - 1];
      CreateAllExact(t, env, pid, before, pending);
      var u := CreatedAll(t, env, pid, before);
      assert hot == before + [s];
      assert pending - Elements(before) - {s} == pending - Elements(hot);
      NewIdDiffers(env, pid, s);
      hide CreatedAll, FreeAll, Free, Pending, Created, Holds, HotId;
      CreateExact(u, env, pid, s, pending - Elements(before));
      forall x: string
        ensures Homed(Created(u, env, pid, s), x) <==> Homed(u, x) || x == s
        ensures Holds(Created(u, env, pid, s), x, pid) <==> Holds(u, x, pid)
      {
        CreateHomes(u, env, pid, s, x);
        CreatedHolds(u, env, pid, s, x, pid);
      }
      CreatedAllLast(t, env, pid, before, s);
    }
  }

  lemma CreatedAllLast(t: Table, env: Surroundings, pid: string, before: seq<string>, s: string)
    ensures CreatedAll(t, env, pid, before + [s]) == Created(CreatedAll(t, env, pid, before), env, pid, s)
  {
    assert (before + [s])[..|before|] == before;
  }

  /** The ids made while visiting a partition are free. */
  ghost predicate FreeVisit(t: Table, env: Surroundings, loads: Loads, pid: string) {
    Splits(t, loads, pid) ==>
      var hot := HotIn(t.partitions[pid].symbols, loads);
      FreeAll(WithoutSymbols(t, pid, Elements(hot)), env, pid, hot)
  }

  ghost predicate FreeRun(t: Table, env: Surroundings, loads: Loads, visits: seq<string>) {
    visits != [] ==>
      var before := visits[..|visits| - 1];
      FreeRun(t, env, loads, before) && FreeVisit(SplitAll(t, env, loads, before), env, loads, visits[|visits| - 1])
  }

  ghost predicate SameHomes(t: Table, u: Table) {
    forall x: string :: Homed(u, x) <==> Homed(t, x)
  }

  lemma WithoutHolds(t: Table, pid: string, gone: set<string>, x: string, q: string)
    requires pid in t.partitions
    ensures Holds(WithoutSymbols(t, pid, gone), x, q) <==> Holds(t, x, q) && (q == pid ==> x !in gone)
    ensures Lists(WithoutSymbols(t, pid, gone), x, q) <==> Lists(t, x, q)
  {
    hide Except;
    ExceptMembers(t.partitions[pid].symbols, gone, x);
  }

  /** Taking the hot symbols out leaves them pending. */
  lemma WithoutIsPending(t: Table, pid: string, hot: seq<string>)
    requires Inverse(t) && pid in t.partitions && forall x <- hot :: x in t.partitions[pid].symbols
    ensures var u := WithoutSymbols(t, pid, Elements(hot));
            && Pending(u, pid, Elements(hot))
            && forall x: string :: Homed(t, x) <==> Homed(u, x) || x in hot
  {
    var u := WithoutSymbols(t, pid, Elements(hot));
    forall x: string, q: string
      ensures Holds(u, x, q) <==> Holds(t, x, q) && (q == pid ==> x !in hot)
      ensures Lists(u, x, q) <==> Lists(t, x, q)
    {
      WithoutHolds(t, pid, Elements(hot), x, q);
    }
    forall x <- hot ensures Holds(t, x, pid) {
    }
    hide WithoutSymbols, Lists, Holds;
    forall x: string ensures Homed(t, x) <==> Homed(u, x) || x in hot {
      if Homed(t, x) && x !in hot {
        var q :| Holds(t, x, q);
        assert Holds(u, x, q);
      } else if Homed(u, x) {
        var q :| Holds(u, x, q);
        assert Holds(t, x, q);
      } else if x in hot {
        assert Holds(t, x, pid);
      }
    }
  }

  lemma PendingNone(t: Table, pid: string, pending: set<string>)
    requires Pending(t, pid, pending) && pending == {}
    ensures Inverse(t)
  {
    hide Lists, Holds;
  }

  lemma VisitKeeps(t: Table, env: Surroundings, loads: Loads, pid: string)
    requires Inverse(t) && FreeVisit(t, env, loads, pid)
    ensures Inverse(Visited(t, env, loads, pid)) && SameHomes(t, Visited(t, env, loads, pid))
  {
    if Splits(t, loads, pid) {
      var hot := HotIn(t.partitions[pid].symbols, loads);
      forall x <- hot ensures x in t.partitions[pid].symbols {
        HotMembers(t.partitions[pid].symbols, loads, x);
      }
      WithoutIsPending(t, pid, hot);
      var u := WithoutSymbols(t, pid, Elements(hot));
      assert forall s <- hot :: s in Elements(hot) && !Holds(u, s, pid);
      hide HotIn, WithoutSymbols, Pending, Lists, Holds, CreatedAll, Inverse;
      CreateAllExact(u, env, pid, hot, Elements(hot));
      PendingNone(CreatedAll(u, env, pid, hot), pid, Elements(hot) - Elements(hot));
    }
  }

  /** For every visiting order, with any of the inserted partitions visited too, splitting keeps the two
      maps inverse and every symbol's having a partition. */
  lemma {:induction false} SplitKeeps(t: Table, env: Surroundings, loads: Loads, visits: seq<string>)
    requires Inverse(t) && FreeRun(t, env, loads, visits)
    ensures Inverse(SplitAll(t, env, loads, visits)) && SameHomes(t, SplitAll(t, env, loads, visits))
  {
    hide Inverse, Visited, FreeVisit, Homed;
    if visits != [] {
      var before := visits[..|visits| - 1];
      SplitKeeps(t, env, loads, before);
      VisitKeeps(SplitAll(t, env, loads, before), env, loads, visits[|visits| - 1]);
    }
  }

  // ---- merging ----

  predicate MergeFree(t: Table, cold: seq<string>, id: string) {
    id in t.partitions ==> forall x <- t.partitions[id].symbols :: x in cold
  }

  lemma MergedHolds(t: Table, cold: seq<string>, id: string, worker: string, x: string, q: string)
    requires Keyed(t)
    ensures Holds(Merged(t, cold, id, worker), x, q) <==> if q == id then x in cold else Holds(t, x, q) && x !in cold
    ensures Lists(Merged(t, cold, id, worker), x, q) <==> if x in cold then q == id else Lists(t, x, q)
  {
    hide Except, Pointed;
    PointedAt(t.symbolToPartition, cold, id, x);
    if q in t.partitions {
      ExceptMembers(t.partitions[q].symbols, Elements(cold), x);
    }
  }

  /** Merging keeps the maps inverse if and only if the new id is unused or held cold symbols only. */
  lemma MergeExact(t: Table, cold: seq<string>, id: string, worker: string)
    requires Inverse(t) && Keyed(t)
    ensures Inverse(Merged(t, cold, id, worker)) <==> MergeFree(t, cold, id)
  {
    var u := Merged(t, cold, id, worker);
    forall x: string, q: string
      ensures Holds(u, x, q) <==> if q == id then x in cold else Holds(t, x, q) && x !in cold
      ensures Lists(u, x, q) <==> if x in cold then q == id else Lists(t, x, q)
    {
      MergedHolds(t, cold, id, worker, x, q);
    }
    hide Merged;
    if id in t.partitions {
      assert forall x <- t.partitions[id].symbols :: Holds(t, x, id);
      if !MergeFree(t, cold, id) {
        var x :| x in t.partitions[id].symbols && x !in cold;
        assert Lists(u, x, id) && !Holds(u, x, id);
      }
    }
  }

  /** A merged symbol ends in the new partition and no other; no symbol loses or gains its last home. */
  lemma MergeHomes(t: Table, cold: seq<string>, id: string, worker: string)
    requires Keyed(t) && MergeFree(t, cold, id) && forall s <- cold :: Homed(t, s)
    ensures var u := Merged(t, cold, id, worker);
            && (forall s <- cold, q: string :: Holds(u, s, q) <==> q == id)
            && SameHomes(t, u)
  {
    var u := Merged(t, cold, id, worker);
    forall x: string, q: string ensures Holds(u, x, q) <==> if q == id then x in cold else Holds(t, x, q) && x !in cold {
      MergedHolds(t, cold, id, worker, x, q);
    }
    hide Merged;
    forall x: string ensures Homed(u, x) <==> Homed(t, x) {
      if x in cold {
        assert Holds(u, x, id);
      } else if Homed(t, x) {
        var q :| Holds(t, x, q);
        assert Holds(u, x, q);
      }
    }
  }

  // ---- a whole scaling round ----

  /** The loads are read for the symbols some partition holds. */
  ghost predicate Collected(t: Table, loads: Loads) {
    forall s: string :: s in loads <==> Homed(t, s)
  }

  /** A round over any orders keeps the maps inverse and every symbol's having a partition, and merged cold
      symbols are in exactly one. */
  lemma ScaleKeeps(t: Table, env: Surroundings, loads: Loads, visits: seq<string>, cold: seq<string>, id: string, worker: string)
    requires Inverse(t) && Keyed(t) && Collected(t, loads) && FreeRun(t, env, loads, visits) && ListsCold(cold, loads)
    requires MergeFree(SplitAll(t, env, loads, visits), cold, id)
    ensures var u := Merged(SplitAll(t, env, loads, visits), cold, id, worker);
            && Inverse(u) && SameHomes(t, u)
            && forall s <- cold, q: string :: Holds(u, s, q) <==> q == id
  {
    SplitKeeps(t, env, loads, visits);
    SplitKeyed(t, env, loads, visits);
    hide SplitAll, FreeRun, Inverse, Merged, MergeFree, Homed, Keyed;
    MergeExact(SplitAll(t, env, loads, visits), cold, id, worker);
    MergeHomes(SplitAll(t, env, loads, visits), cold, id, worker);
  }

  // ---- hot symbols end alone ----

  predicate Isolated(t: Table, loads: Loads, pid: string) {
    pid in t.partitions ==> forall s <- t.partitions[pid].symbols :: Hot(loads, s) ==> t.partitions[pid].symbols == [s]
  }

  lemma {:induction false} CreateAllIsolates(t: Table, env: Surroundings, loads: Loads, pid: string, hot: seq<string>, q: string)
    requires Isolated(t, loads, q)
    ensures Isolated(CreatedAll(t, env, pid, hot), loads, q)
  {
    hide HotId;
    if hot != [] {
      CreateAllIsolates(t, env, loads, pid, hot[..|hot| - 1], q);
    }
  }

  lemma VisitIsolates(t: Table, env: Surroundings, loads: Loads, pid: string, q: string)
    requires q == pid || Isolated(t, loads, q)
    ensures Isolated(Visited(t, env, loads, pid), loads, q)
  {
    if pid in t.partitions {
      var symbols := t.partitions[pid].symbols;
      var hot := HotIn(symbols, loads);
      forall x: string ensures x in hot <==> x in symbols && Hot(loads, x) {
        HotMembers(symbols, loads, x);
      }
      if hot != [] {
        forall x: string ensures x in Except(symbols, Elements(hot)) <==> x in symbols && x !in hot {
          ExceptMembers(symbols, Elements(hot), x);
        }
        hide Except, HotIn, CreatedAll;
        CreateAllIsolates(WithoutSymbols(t, pid, Elements(hot)), env, loads, pid, hot, q);
      }
    }
  }

  lemma {:induction false} SplitIsolatesVisited(t: Table, env: Surroundings, loads: Loads, visits: seq<string>, q: string)
    requires q in visits || Isolated(t, loads, q)
    ensures Isolated(SplitAll(t, env, loads, visits), loads, q)
  {
    hide Visited, Isolated;
    if visits != [] {
      var before, last := visits[..|visits| - 1], visits[|visits| - 1];
      assert visits == before + [last];
      if q != last {
        SplitIsolatesVisited(t, env, loads, before, q);
      }
      VisitIsolates(SplitAll(t, env, loads, before), env, loads, last, q);
    }
  }

  /** When every partition of the table is visited, a hot symbol ends in partitions of its own only. */
  lemma SplitIsolatesHot(t: Table, env: Surroundings, loads: Loads, visits: seq<string>)
    requires forall pid <- t.partitions :: pid in visits
    ensures forall pid: string :: Isolated(SplitAll(t, env, loads, visits), loads, pid)
  {
    hide SplitAll;
    forall pid: string ensures Isolated(SplitAll(t, env, loads, visits), loads, pid) {
      SplitIsolatesVisited(t, env, loads, visits, pid);
    }
  }

  // ---- the round itself ----

  method CollectLoads(t: Table, qps: string -> int) returns (loads: Loads)
    ensures Collected(t, loads) && forall s <- loads :: loads[s] == qps(s)
  {
    loads := map[];
    var rest := t.partitions.Keys;
    while rest != {}
      invariant rest <= t.partitions.Keys
      invariant forall s <- loads :: Homed(t, s) && loads[s] == qps(s)
      invariant forall pid <- t.partitions.Keys - rest, s <- t.partitions[pid].symbols :: s in loads
      decreases rest
    {
      var pid :| pid in rest;
      rest := rest - {pid};
      var symbols, i := t.partitions[pid].symbols, 0;
      while i < |symbols|
        invariant 0 <= i <= |symbols|
        invariant forall s <- loads :: Homed(t, s) && loads[s] == qps(s)
        invariant forall k <- t.partitions.Keys - rest - {pid}, s <- t.partitions[k].symbols :: s in loads
        invariant forall j :: 0 <= j < i ==> symbols[j] in loads
      {
        assert Holds(t, symbols[i], pid);
        loads := loads[symbols[i] := qps(symbols[i])];
        i := i + 1;
      }
    }
  }

  /** A copy of the table is changed and handed over only when something was split or merged. */
  method ScaleIfNeeded(t: Table, env: Surroundings, qps: string -> int, visits: seq<string>, stamp: string)
    returns (r: Table, needUpdate: bool, ghost loads: Loads, ghost cold: seq<string>)
    ensures Collected(t, loads) && (forall s <- loads :: loads[s] == qps(s)) && ListsCold(cold, loads)
    ensures needUpdate <==> SplitNeeded(t, env, loads, visits) || |set s <- loads | Cold(loads, s)| > 1
    ensures r == if |set s <- loads | Cold(loads, s)| > 1
                 then Merged(SplitAll(t, env, loads, visits), cold, ColdId(stamp), IdleWorker(env.workers, env.load))
                 else SplitAll(t, env, loads, visits)
    ensures !needUpdate ==> r == t
    ensures Inverse(t) && Keyed(t) && FreeRun(t, env, loads, visits) && MergeFree(SplitAll(t, env, loads, visits), cold, ColdId(stamp)) ==>
              && Inverse(r) && SameHomes(t, r)
              && (|set s <- loads | Cold(loads, s)| > 1 ==> forall s <- cold, q: string :: Holds(r, s, q) <==> q == ColdId(stamp))
  {
    var symbolLoad := CollectLoads(t, qps);
    loads := symbolLoad;
    var newPT := new PartitionTable(t);
    var hot := SplitHotSymbols(newPT, env, symbolLoad, visits);
    ghost var split := newPT.Abs();
    var merged: bool;
    merged, cold := MergeColdSymbols(newPT, env, symbolLoad, stamp);
    hide Inverse, FreeRun, MergeFree, SplitAll, SameHomes, Merged, ListsCold, Collected;
    if Inverse(t) && Keyed(t) && FreeRun(t, env, loads, visits) && MergeFree(split, cold, ColdId(stamp)) {
      ScaleKeeps(t, env, loads, visits, cold, ColdId(stamp), IdleWorker(env.workers, env.load));
      SplitKeeps(t, env, loads, visits);
    }
    needUpdate := hot || merged;
    if !hot {
      NoSplit(t, env, symbolLoad, visits);
    }
    r := newPT.Abs();
  }

  lemma {:induction false} NoSplit(t: Table, env: Surroundings, loads: Loads, visits: seq<string>)
    requires !SplitNeeded(t, env, loads, visits)
    ensures SplitAll(t, env, loads, visits) == t
  {
    if visits != [] {
      NoSplit(t, env, loads, visits[..|visits| - 1]);
    }
  }

  lemma {:induction false} CreatedAllKeyed(t: Table, env: Surroundings, pid: string, hot: seq<string>)
    requires Keyed(t)
    ensures Keyed(CreatedAll(t, env, pid, hot))
  {
    hide HotId;
    if hot != [] {
      CreatedAllKeyed(t, env, pid, hot[..|hot| - 1]);
    }
  }

  lemma {:induction false} SplitKeyed(t: Table, env: Surroundings, loads: Loads, visits: seq<string>)
    requires Keyed(t)
    ensures Keyed(SplitAll(t, env, loads, visits))
  {
    if visits != [] {
      var u, pid := SplitAll(t, env, loads, visits[..|visits| - 1]), visits[|visits| - 1];
      SplitKeyed(t, env, loads, visits[..|visits| - 1]);
      if Splits(u, loads, pid) {
        var hot := HotIn(u.partitions[pid].symbols, loads);
        CreatedAllKeyed(WithoutSymbols(u, pid, Elements(hot)), env, pid, hot);
      }
    }
  }

  // ---- ids that are not free ----

  /** The id of a hot partition does not tell where the old id ends and the symbol begins. */
  lemma HotIdsCollide(env: Surroundings)
    requires env.stamp("p", "x_hot_y") == env.stamp("p_hot_x", "y")
    ensures HotId(env, "p", "x_hot_y") == HotId(env, "p_hot_x", "y")
  {
    assert "p" + "_hot_" + "x_hot_y" == "p_hot_x" + "_hot_" + "y";
  }

  /** Splitting two partitions whose new ids collide: the symbol split first is left without a partition. */
  lemma CollidingSplitLosesSymbol(t: Table, env: Surroundings, a: string, x: string, b: string, y: string)
    requires x != y && HotId(env, a, x) == HotId(env, b, y)
    requires x in t.symbolToPartition && t.symbolToPartition[x] == [a] && forall q <- t.partitions :: x !in t.partitions[q].symbols
    ensures var u := Created(Created(t, env, a, x), env, b, y);
            Lists(u, x, HotId(env, a, x)) && !Homed(u, x)
  {
    var id := HotId(env, a, x);
    var v := Created(t, env, a, x);
    var u := Created(v, env, b, y);
    CreatedHolds(t, env, a, x, x, id);
    CreatedHolds(v, env, b, y, x, id);
    forall q: string ensures !Holds(u, x, q) {
      CreatedHolds(t, env, a, x, x, q);
      CreatedHolds(v, env, b, y, x, q);
    }
  }

  /** A merge in the same second of another day: the clock text, and with it the id, comes round again, and
      the symbol merged then and still resting there is left without a partition. */
  lemma SameSecondNextDayLosesSymbol(t: Table, stamp: string, worker: string)
    requires var id := ColdId(stamp);
             id != "p" &&
             t == Table(map["a" := [id], "c" := ["p"], "d" := ["p"]],
                        map[id := Partition(id, ["a"], [worker]), "p" := Partition("p", ["c", "d"], [worker])])
    ensures Inverse(t) && Keyed(t) && Homed(t, "a")
    ensures var u := Merged(t, ["c", "d"], ColdId(stamp), worker); !Homed(u, "a") && !Inverse(u)
  {
    hide ColdId, Merged;
    var id := ColdId(stamp);
    var cold := ["c", "d"];
    assert Holds(t, "a", id) && Lists(t, "a", id);
    forall s: string, q: string ensures Lists(t, s, q) <==> Holds(t, s, q) {
    }
    var u := Merged(t, cold, id, worker);
    MergeExact(t, cold, id, worker);
    forall q: string ensures !Holds(u, "a", q) {
      MergedHolds(t, cold, id, worker, "a", q);
    }
  }

  // ---- where new partitions run ----

  /** One worker, which no worker undercuts; the empty name when there are no workers. */
  ghost predicate OnIdleWorker(p: Partition, env: Surroundings) {
    && |p.workers| == 1
    && (env.workers == [] ==> p.workers[0] == "")
    && (env.workers != [] ==> p.workers[0] in env.workers && forall w <- env.workers :: env.load(p.workers[0]) <= env.load(w))
  }

  /** Every partition has the workers it had before, or is new and on an idle worker. */
  ghost predicate Placed(t: Table, u: Table, env: Surroundings) {
    forall q <- u.partitions :: (q in t.partitions && u.partitions[q].workers == t.partitions[q].workers) || OnIdleWorker(u.partitions[q], env)
  }

  lemma IdleWorkerUndercutsAll(id: string, symbols: seq<string>, env: Surroundings)
    ensures OnIdleWorker(Partition(id, symbols, [IdleWorker(env.workers, env.load)]), env)
  {
    if env.workers != [] {
      var i := IdleWorkerIsFirstLeast(env.workers, env.load);
    }
  }

  lemma {:induction false} CreatedAllPlaced(t: Table, v: Table, env: Surroundings, pid: string, hot: seq<string>)
    requires Placed(t, v, env)
    ensures Placed(t, CreatedAll(v, env, pid, hot), env)
  {
    hide HotId, IdleWorker, OnIdleWorker;
    if hot != [] {
      var s := hot[|hot| - 1];
      CreatedAllPlaced(t, v, env, pid, hot[..|hot| - 1]);
      IdleWorkerUndercutsAll(HotId(env, pid, s), [s], env);
    }
  }

  /** A split moves no partition to another worker and puts every new one on a worker of least load. */
  lemma {:induction false} SplitPlacesIdle(t: Table, env: Surroundings, loads: Loads, visits: seq<string>)
    ensures Placed(t, SplitAll(t, env, loads, visits), env)
  {
    hide HotIn, OnIdleWorker, CreatedAll, Except;
    if visits != [] {
      var u, pid := SplitAll(t, env, loads, visits[..|visits| - 1]), visits[|visits| - 1];
      SplitPlacesIdle(t, env, loads, visits[..|visits| - 1]);
      if Splits(u, loads, pid) {
        var hot := HotIn(u.partitions[pid].symbols, loads);
        var v := WithoutSymbols(u, pid, Elements(hot));
        assert Placed(t, v, env) by {
          SameWorkersPlaced(t, u, v, env);
        }
        CreatedAllPlaced(t, v, env, pid, hot);
      }
    }
  }

  lemma SameWorkersPlaced(t: Table, u: Table, v: Table, env: Surroundings)
    requires Placed(t, u, env) && v.partitions.Keys == u.partitions.Keys
    requires forall q <- u.partitions :: v.partitions[q].workers == u.partitions[q].workers
    ensures Placed(t, v, env)
  {
  }

  /** So does a merge; it also keeps every id under its own key. */
  lemma MergePlacesIdle(t: Table, env: Surroundings, cold: seq<string>, id: string)
    ensures Placed(t, Merged(t, cold, id, IdleWorker(env.workers, env.load)), env)
    ensures Keyed(t) ==> Keyed(Merged(t, cold, id, IdleWorker(env.workers, env.load)))
  {
    hide IdleWorker, OnIdleWorker, Except, Pointed;
    IdleWorkerUndercutsAll(id, cold, env);
  }

  // ---- order and thresholds ----

  /** Dropping elements keeps the order of the others: it goes through a list piece by piece. */
  lemma {:induction false} ExceptInOrder(a: seq<string>, b: seq<string>, gone: set<string>)
    ensures Except(a + b, gone) == Except(a, gone) + Except(b, gone)
  {
    if b == [] {
      assert a + b == a;
    } else {
      var n := |b| - 1;
      assert (a + b)[..|a + b| - 1] == a + b[..n];
      ExceptInOrder(a, b[..n], gone);
    }
  }

  lemma {:induction false} HotInOrder(a: seq<string>, b: seq<string>, loads: Loads)
    ensures HotIn(a + b, loads) == HotIn(a, loads) + HotIn(b, loads)
  {
    if b == [] {
      assert a + b == a;
    } else {
      var n := |b| - 1;
      assert (a + b)[..|a + b| - 1] == a + b[..n];
      HotInOrder(a, b[..n], loads);
    }
  }

  /** 801 is hot and 800 is not, 4 is cold and 5 is not, and no load is both. */
  lemma Thresholds(loads: Loads, s: string)
    requires s in loads
    ensures Hot(loads, s) <==> loads[s] >= 801
    ensures Cold(loads, s) <==> loads[s] <= 4
    ensures !(Hot(loads, s) && Cold(loads, s))
  {
  }

  /** A split symbol's list ends with the new id; before it stand its other ids in their old order. */
  lemma NewIdIsLast(t: Table, env: Surroundings, pid: string, s: string)
    ensures var list := PartitionsOf(Created(t, env, pid, s), s);
            && list != [] && list[|list| - 1] == HotId(env, pid, s)
            && list[..|list| - 1] == Except(PartitionsOf(t, s), {pid})
            && forall x: string :: x != s ==> PartitionsOf(Created(t, env, pid, s), x) == PartitionsOf(t, x)
  {
    hide Except, HotId, IdleWorker;
  }
}
