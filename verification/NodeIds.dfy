/** Allocation of node ids from a shared counter in a key-value store, by read then compare-and-swap
    (biz/service/node_id_manager.go). */
module NodeIds {
  import opened Sequencing

  const REGISTRY_PREFIX := "node_registry/"
  const COUNTER_KEY := "node_registry/next_id"
  const MAX_RETRIES: nat := 3

  /** What a key can hold: a decimal counter, or the JSON entry of a registered node. */
  datatype Content = Counter(next: nat) | Registered(id: nat, addr: string)

  datatype Slot = Slot(content: Content, modifyIndex: nat)

  /** The store; `index` is the last modify index handed out. */
  datatype Store = Store(slots: map<string, Slot>, index: nat)

  /** `parseNodeID`: scanning a JSON entry for a decimal leaves the zero value. */
  function ParseCounter(c: Content): nat {
    match c
    case Counter(n) => n
    case Registered(_, _) => 0
  }

  function CounterIndex(st: Store): nat {
    if COUNTER_KEY in st.slots then st.slots[COUNTER_KEY].modifyIndex else 0
  }

  function CounterValue(st: Store): nat {
    if COUNTER_KEY in st.slots then ParseCounter(st.slots[COUNTER_KEY].content) else 1
  }

  function Put(st: Store, key: string, c: Content): Store {
    Store(st.slots[key := Slot(c, st.index + 1)], st.index + 1)
  }

  /** Swap on a matching modify index; index 0 asks for the key to be absent. */
  predicate SwapSucceeds(st: Store, expected: nat) {
    CounterIndex(st) == expected
  }

  ghost predicate StoreOk(st: Store) {
    && forall k <- st.slots :: 0 < st.slots[k].modifyIndex <= st.index
  }

  // ---- the retry loop ----

  class KeyValueStore {
    var state: Store

    constructor ()
      ensures state == Store(map[], 0)
    {
      state := Store(map[], 0);
    }

    method CompareAndSwap(c: Content, expected: nat) returns (success: bool)
      modifies this
      ensures success == SwapSucceeds(old(state), expected)
      ensures state == if success then Put(old(state), COUNTER_KEY, c) else old(state)
    {
      success := CounterIndex(state) == expected;
      if success {
        state := Put(state, COUNTER_KEY, c);
      }
    }

    /** What other nodes do between two calls of ours: any number of successful allocations. */
    method OthersAllocate(n: nat)
      modifies this
      ensures state == Allocations(old(state), n)
    {
      var i := 0;
      while i < n
        invariant i <= n && state == Allocations(old(state), i)
      {
        state := Put(state, COUNTER_KEY, Counter(CounterValue(state) + 1));
        i := i + 1;
      }
    }
  }

  function Allocations(st: Store, n: nat): Store {
    if n == 0 then st
    else
      var s := Allocations(st, n - 1);
      Put(s, COUNTER_KEY, Counter(CounterValue(s) + 1))
  }

  lemma {:induction false} AllocationsAdvance(st: Store, n: nat)
    requires StoreOk(st)
    ensures StoreOk(Allocations(st, n)) && Allocations(st, n).index == st.index + n
    ensures CounterValue(Allocations(st, n)) == CounterValue(st) + n
    ensures CounterIndex(Allocations(st, n)) == CounterIndex(st) <==> n == 0
  {
    if n > 0 {
      AllocationsAdvance(st, n - 1);
    }
  }

  /** A store call that ends the allocation in an error: the read of an attempt, or its swap, which may have
      taken effect. */
  datatype StoreError = NoError | ReadError(attempt: nat) | SwapError(attempt: nat, effective: bool)

  /** Attempt k is reached: all earlier ones were raced and no call of theirs failed. */
  ghost predicate Reaches(rivals: seq<nat>, err: StoreError, k: nat)
    requires k <= |rivals|
  {
    (forall i :: 0 <= i < k ==> rivals[i] > 0) && (err.NoError? || err.attempt >= k)
  }

  /** Why an allocation that reached attempt k ended without an id, and where that leaves the counter. */
  ghost predicate EndsWithoutId(rivals: seq<nat>, err: StoreError, k: nat, first: nat, last: nat)
    requires k <= |rivals| == 3
  {
    var current := first + Total(rivals[..k]);
    || (k == 3 && last == current)
    || (err == ReadError(k) && last == current)
    || (current > 1023 && last == current)
    || (k < 3 && err.SwapError? && err.attempt == k
        && last == current + rivals[k] + if err.effective && rivals[k] == 0 then 1 else 0)
  }

  /** `allocateNewNodeID`. rivals[k] is the number of allocations by other nodes between the read and
      the swap of attempt k. An id is returned only by the attempt nobody raced, and then it is the
      counter value at that moment; the counter always ends past every id handed out meanwhile. */
  method AllocateNewNodeId(kv: KeyValueStore, rivals: seq<nat>, err: StoreError) returns (id: nat, ok: bool)
    requires StoreOk(kv.state) && |rivals| == 3
    modifies kv
    ensures StoreOk(kv.state)
    ensures ok ==> exists k: nat :: k < 3 && Reaches(rivals, err, k) && rivals[k] == 0
                       && (err.NoError? || err.attempt > k)
                       && id == CounterValue(old(kv.state)) + Total(rivals[..k]) <= 1023
    ensures ok ==> CounterValue(kv.state) == id + 1
    ensures !ok ==> id == 0
    ensures !ok ==> exists k: nat :: k <= 3 && Reaches(rivals, err, k)
                        && EndsWithoutId(rivals, err, k, CounterValue(old(kv.state)), CounterValue(kv.state))
  {
    var attempt := 0;
    while attempt < MAX_RETRIES
      invariant 0 <= attempt <= MAX_RETRIES && StoreOk(kv.state) && Reaches(rivals, err, attempt)
      invariant CounterValue(kv.state) == CounterValue(old(kv.state)) + Total(rivals[..attempt])
    {
      if err == ReadError(attempt) {
        return 0, false;
      }
      var currentId := CounterValue(kv.state);
      var modifyIndex := CounterIndex(kv.state);
      if currentId > MAX_NODE {
        return 0, false;
      }
      AllocationsAdvance(kv.state, rivals[attempt]);
      kv.OthersAllocate(rivals[attempt]);
      if err.SwapError? && err.attempt == attempt {
        if err.effective {
          var lost := kv.CompareAndSwap(Counter(currentId + 1), modifyIndex);
        }
        return 0, false;
      }
      var success := kv.CompareAndSwap(Counter(currentId + 1), modifyIndex);
      if success {
        return currentId, true;
      }
      assert rivals[..attempt + 1][..attempt] == rivals[..attempt];
      attempt := attempt + 1;
    }
    return 0, false;
  }

  function Total(ns: seq<nat>): nat {
    if ns == [] then 0 else Total(ns[..|ns| - 1]) + ns[|ns| - 1]
  }

  // ---- any number of nodes, any interleaving of their store calls ----

  datatype Phase =
    | LookingUp
    | Reading(attempt: nat)
    | Swapping(attempt: nat, current: nat, expected: nat)
    | Saving(id: nat)
    | Returned(id: nat)
    | Refused

  datatype Process = Process(addr: string, phase: Phase)

  datatype Grant = Grant(addr: string, id: nat)

  /** `granted` lists the successful swaps, oldest first. */
  datatype Cluster = Cluster(store: Store, processes: map<nat, Process>, granted: seq<Grant>)

  /** One store call of one process, or its start; `Lose` is a call that ends in an error, having
      taken effect or not. */
  datatype Action =
    | Begin(pid: nat, addr: string)
    | Lookup(pid: nat)
    | Read(pid: nat)
    | Swap(pid: nat)
    | Save(pid: nat)
    | Lose(pid: nat, effective: bool)

  function Moved(c: Cluster, pid: nat, ph: Phase): Cluster
    requires pid in c.processes
  {
    c.(processes := c.processes[pid := c.processes[pid].(phase := ph)])
  }

  function DoSwap(c: Cluster, pid: nat): Cluster
    requires pid in c.processes && c.processes[pid].phase.Swapping?
  {
    var p := c.processes[pid];
    if SwapSucceeds(c.store, p.phase.expected) then
      Moved(c, pid, Saving(p.phase.current)).(
        store := Put(c.store, COUNTER_KEY, Counter(p.phase.current + 1)),
        granted := c.granted + [Grant(p.addr, p.phase.current)])
    else if p.phase.attempt + 1 < MAX_RETRIES then Moved(c, pid, Reading(p.phase.attempt + 1))
    else Moved(c, pid, Refused)
  }

  function DoSave(c: Cluster, pid: nat): Cluster
    requires pid in c.processes && c.processes[pid].phase.Saving?
  {
    var p := c.processes[pid];
    Moved(c, pid, Returned(p.phase.id)).(
      store := Put(c.store, REGISTRY_PREFIX + p.addr, Registered(p.phase.id, p.addr)))
  }

  /** Actions that do not fit the process's phase leave the cluster as it is. */
  function Step(c: Cluster, a: Action): Cluster {
    match a
    case Begin(pid, addr) =>
      if pid in c.processes || addr == "" then c
      else c.(processes := c.processes[pid := Process(addr, LookingUp)])
    case Lookup(pid) =>
      if pid !in c.processes || !c.processes[pid].phase.LookingUp? then c
      else
        var key := REGISTRY_PREFIX + c.processes[pid].addr;
        if key in c.store.slots && c.store.slots[key].content.Registered?
        then Moved(c, pid, Returned(c.store.slots[key].content.id))
        else Moved(c, pid, Reading(0))
    case Read(pid) =>
      if pid !in c.processes || !c.processes[pid].phase.Reading? then c
      else if CounterValue(c.store) > MAX_NODE then Moved(c, pid, Refused)
      else Moved(c, pid, Swapping(c.processes[pid].phase.attempt, CounterValue(c.store), CounterIndex(c.store)))
    case Swap(pid) =>
      if pid !in c.processes || !c.processes[pid].phase.Swapping? then c else DoSwap(c, pid)
    case Save(pid) =>
      if pid !in c.processes || !c.processes[pid].phase.Saving? then c else DoSave(c, pid)
    case Lose(pid, effective) =>
      if pid !in c.processes || c.processes[pid].phase.Returned? then c
      else if effective && c.processes[pid].phase.Swapping? then Moved(DoSwap(c, pid), pid, Refused)
      else if effective && c.processes[pid].phase.Saving? then Moved(DoSave(c, pid), pid, Refused)
      else Moved(c, pid, Refused)
  }

  const START := Cluster(Store(map[], 0), map[], [])

  function Run(c: Cluster, actions: seq<Action>): Cluster
    decreases |actions|
  {
    if actions == [] then c else Run(Step(c, actions[0]), actions[1..])
  }

  /** No node calls itself `next_id`, which is the counter's own key below the registry prefix. */
  ghost predicate AddressesAvoidCounter(actions: seq<Action>) {
    forall i :: 0 <= i < |actions| && actions[i].Begin? ==> actions[i].addr != "next_id"
  }

  ghost predicate GrantsOk(c: Cluster) {
    && (forall i :: 0 <= i < |c.granted| ==> 1 <= c.granted[i].id <= MAX_NODE && c.granted[i].id < CounterValue(c.store))
    && (forall i, j :: 0 <= i < j < |c.granted| ==> c.granted[i].id != c.granted[j].id)
  }

  ghost predicate ProcessOk(c: Cluster, p: Process) {
    && p.addr != "next_id"
    && (p.phase.Swapping? ==>
          && p.phase.expected <= CounterIndex(c.store)
          && 1 <= p.phase.current <= MAX_NODE
          && (p.phase.expected == CounterIndex(c.store) ==> p.phase.current == CounterValue(c.store)))
    && (p.phase.Saving? || p.phase.Returned? ==> Grant(p.addr, p.phase.id) in c.granted)
  }

  ghost predicate Inv(c: Cluster) {
    && StoreOk(c.store)
    && 1 <= CounterValue(c.store)
    && (COUNTER_KEY in c.store.slots ==> c.store.slots[COUNTER_KEY].content.Counter?)
    && GrantsOk(c)
    && (forall pid <- c.processes :: ProcessOk(c, c.processes[pid]))
    && (forall addr: string :: RegistryOk(c, addr))
  }

  ghost predicate RegistryOk(c: Cluster, addr: string) {
    var key := REGISTRY_PREFIX + addr;
    addr != "next_id" && key in c.store.slots && c.store.slots[key].content.Registered? ==>
      Grant(addr, c.store.slots[key].content.id) in c.granted
  }

  lemma RegistryKeys(a: string, b: string)
    ensures REGISTRY_PREFIX + a == REGISTRY_PREFIX + b ==> a == b
    ensures REGISTRY_PREFIX + a == COUNTER_KEY ==> a == "next_id"
  {
    var n := |REGISTRY_PREFIX|;
    assert (REGISTRY_PREFIX + a)[n..] == a && (REGISTRY_PREFIX + b)[n..] == b;
    assert COUNTER_KEY == REGISTRY_PREFIX + "next_id";
    assert COUNTER_KEY[n..] == "next_id";
  }

  lemma SwapKeepsInv(c: Cluster, pid: nat)
    requires Inv(c) && pid in c.processes && c.processes[pid].phase.Swapping?
    ensures Inv(DoSwap(c, pid))
  {
    var p, d := c.processes[pid], DoSwap(c, pid);
    assert ProcessOk(c, p);
    if SwapSucceeds(c.store, p.phase.expected) {
      forall q <- d.processes ensures ProcessOk(d, d.processes[q]) {
        assert ProcessOk(c, c.processes[q]);
        assert CounterIndex(d.store) == c.store.index + 1;
      }
      forall addr ensures RegistryOk(d, addr) {
        assert RegistryOk(c, addr);
        RegistryKeys(addr, addr);
      }
    } else {
      forall q <- d.processes ensures ProcessOk(d, d.processes[q]) {
        assert ProcessOk(c, c.processes[q]);
      }
      forall addr ensures RegistryOk(d, addr) {
        assert RegistryOk(c, addr);
      }
    }
  }

  lemma SaveKeepsInv(c: Cluster, pid: nat)
    requires Inv(c) && pid in c.processes && c.processes[pid].phase.Saving?
    ensures Inv(DoSave(c, pid))
  {
    var p, d := c.processes[pid], DoSave(c, pid);
    assert ProcessOk(c, p);
    RegistryKeys(p.addr, p.addr);
    forall q <- d.processes ensures ProcessOk(d, d.processes[q]) {
      assert ProcessOk(c, c.processes[q]);
    }
    forall addr ensures RegistryOk(d, addr) {
      assert RegistryOk(c, addr);
      RegistryKeys(addr, p.addr);
    }
  }

  lemma MoveKeepsInv(c: Cluster, pid: nat, ph: Phase)
    requires Inv(c) && pid in c.processes && ProcessOk(c, c.processes[pid].(phase := ph))
    ensures Inv(Moved(c, pid, ph))
  {
    var d := Moved(c, pid, ph);
    forall q <- d.processes ensures ProcessOk(d, d.processes[q]) {
      assert ProcessOk(c, c.processes[q]);
    }
    forall addr ensures RegistryOk(d, addr) {
      assert RegistryOk(c, addr);
    }
  }

  lemma StepKeepsInv(c: Cluster, a: Action)
    requires Inv(c) && (a.Begin? ==> a.addr != "next_id")
    ensures Inv(Step(c, a))
  {
    match a
    case Begin(pid, addr) =>
      var d := Step(c, a);
      forall q <- d.processes ensures ProcessOk(d, d.processes[q]) {
        assert q in c.processes ==> ProcessOk(c, c.processes[q]);
      }
      forall x ensures RegistryOk(d, x) {
        assert RegistryOk(c, x);
      }
    case Lookup(pid) =>
      if pid in c.processes && c.processes[pid].phase.LookingUp? {
        assert ProcessOk(c, c.processes[pid]);
        assert RegistryOk(c, c.processes[pid].addr);
        MoveKeepsInv(c, pid, Step(c, a).processes[pid].phase);
      }
    case Read(pid) =>
      if pid in c.processes && c.processes[pid].phase.Reading? {
        assert ProcessOk(c, c.processes[pid]);
        MoveKeepsInv(c, pid, Step(c, a).processes[pid].phase);
      }
    case Swap(pid) =>
      if pid in c.processes && c.processes[pid].phase.Swapping? {
        SwapKeepsInv(c, pid);
      }
    case Save(pid) =>
      if pid in c.processes && c.processes[pid].phase.Saving? {
        SaveKeepsInv(c, pid);
      }
    case Lose(pid, effective) =>
      if pid in c.processes && !c.processes[pid].phase.Returned? {
        assert ProcessOk(c, c.processes[pid]);
        if effective && c.processes[pid].phase.Swapping? {
          SwapKeepsInv(c, pid);
          assert ProcessOk(DoSwap(c, pid), DoSwap(c, pid).processes[pid]);
          MoveKeepsInv(DoSwap(c, pid), pid, Refused);
        } else if effective && c.processes[pid].phase.Saving? {
          SaveKeepsInv(c, pid);
          assert ProcessOk(DoSave(c, pid), DoSave(c, pid).processes[pid]);
          MoveKeepsInv(DoSave(c, pid), pid, Refused);
        } else {
          MoveKeepsInv(c, pid, Refused);
        }
      }
  }

  lemma {:induction false} RunKeepsInv(c: Cluster, actions: seq<Action>)
    requires Inv(c) && AddressesAvoidCounter(actions)
    ensures Inv(Run(c, actions))
    decreases |actions|
  {
    if actions != [] {
      StepKeepsInv(c, actions[0]);
      RunKeepsInv(Step(c, actions[0]), actions[1..]);
    }
  }

  /** Swapped ids never repeat; a returned id lies in 1..1023, was swapped in for that address, and so
      differs from every id returned to another address. */
  ghost predicate IdsSafe(c: Cluster) {
    && (forall i, j :: 0 <= i < j < |c.granted| ==> c.granted[i].id != c.granted[j].id)
    && (forall p <- c.processes :: c.processes[p].phase.Returned? ==>
          1 <= c.processes[p].phase.id <= 1023 && Grant(c.processes[p].addr, c.processes[p].phase.id) in c.granted)
    && (forall p, q :: p in c.processes && q in c.processes && c.processes[p].addr != c.processes[q].addr ==>
          c.processes[p].phase.Returned? && c.processes[q].phase.Returned? ==>
            c.processes[p].phase.id != c.processes[q].phase.id)
  }

  lemma NodeIdsSafe(actions: seq<Action>)
    requires AddressesAvoidCounter(actions)
    ensures IdsSafe(Run(START, actions))
  {
    RunKeepsInv(START, actions);
    var c := Run(START, actions);
    forall p, q | p in c.processes && q in c.processes && c.processes[p].phase.Returned? && c.processes[q].phase.Returned?
                  && c.processes[p].addr != c.processes[q].addr
      ensures c.processes[p].phase.id != c.processes[q].phase.id
    {
      var g, h := Grant(c.processes[p].addr, c.processes[p].phase.id), Grant(c.processes[q].addr, c.processes[q].phase.id);
      assert ProcessOk(c, c.processes[p]) && ProcessOk(c, c.processes[q]);
      assert g in c.granted && h in c.granted && g != h;
    }
    forall p <- c.processes | c.processes[p].phase.Returned?
      ensures 1 <= c.processes[p].phase.id <= 1023 && Grant(c.processes[p].addr, c.processes[p].phase.id) in c.granted
    {
      assert ProcessOk(c, c.processes[p]);
    }
  }

  /** Two nodes of which the first is called `next_id`; the other has looked up its entry already. */
  const CLASH: seq<Action> := [Lookup(0), Read(0), Swap(0), Save(0), Read(1), Swap(1), Save(1)]

  function ClashStart(other: string): Cluster {
    Run(START, [Begin(0, "next_id"), Begin(1, other), Lookup(1)])
  }

  lemma RunThree(c: Cluster, x: Action, y: Action, z: Action)
    ensures Run(c, [x, y, z]) == Step(Step(Step(c, x), y), z)
  {
    hide Step;
    var c1, c2, c3 := Step(c, x), Step(Step(c, x), y), Step(Step(Step(c, x), y), z);
    assert Run(c3, []) == c3 && Run(c2, [z]) == c3 && Run(c1, [y, z]) == c3;
  }

  lemma ClashBegins(other: string)
    requires other != ""
    ensures ClashStart(other) == Cluster(Store(map[], 0), map[0 := Process("next_id", LookingUp), 1 := Process(other, Reading(0))], [])
  {
    RunThree(START, Begin(0, "next_id"), Begin(1, other), Lookup(1));
    hide Run;
    var b1 := Step(START, Begin(0, "next_id"));
    assert b1.processes == map[0 := Process("next_id", LookingUp)];
  }

  lemma CounterOverwritten(c: Cluster, other: string)
    requires c == Cluster(Store(map[], 0), map[0 := Process("next_id", LookingUp), 1 := Process(other, Reading(0))], [])
    ensures Step(Step(Step(Step(c, Lookup(0)), Read(0)), Swap(0)), Save(0)) ==
            Cluster(Store(map[COUNTER_KEY := Slot(Registered(1, "next_id"), 2)], 2),
                    map[0 := Process("next_id", Returned(1)), 1 := Process(other, Reading(0))], [Grant("next_id", 1)])
  {
    assert REGISTRY_PREFIX + "next_id" == COUNTER_KEY;
    var c1 := Step(c, Lookup(0));
    var c2 := Step(c1, Read(0));
    assert c2.processes[0].phase == Swapping(0, 1, 0);
    var c3 := Step(c2, Swap(0));
    assert c3.processes[0].phase == Saving(1);
  }

  lemma ZeroHandedOut(c: Cluster, other: string)
    requires c == Cluster(Store(map[COUNTER_KEY := Slot(Registered(1, "next_id"), 2)], 2),
                          map[0 := Process("next_id", Returned(1)), 1 := Process(other, Reading(0))], [Grant("next_id", 1)])
    ensures var z := Step(Step(Step(c, Read(1)), Swap(1)), Save(1));
            1 in z.processes && z.processes[1].phase == Returned(0)
  {
    var c5 := Step(c, Read(1));
    assert c5.processes[1].phase == Swapping(0, 0, 2);
    var c6 := Step(c5, Swap(1));
    assert c6.processes[1].phase == Saving(0);
  }

  /** A node called `next_id` overwrites the counter with its own entry, and the node that allocates next is
      handed id 0. */
  lemma CounterKeyClash(other: string)
    requires other != ""
    ensures 1 in Run(ClashStart(other), CLASH).processes
    ensures Run(ClashStart(other), CLASH).processes[1].phase == Returned(0)
    ensures !IdsSafe(Run(ClashStart(other), CLASH))
  {
    var c := ClashStart(other);
    ClashBegins(other);
    CounterOverwritten(c, other);
    var c1 := Step(c, Lookup(0));
    var c4 := Step(Step(Step(c1, Read(0)), Swap(0)), Save(0));
    ZeroHandedOut(c4, other);
    hide Step, ClashStart;
    RunThree(c1, Read(0), Swap(0), Save(0));
    RunThree(c4, Read(1), Swap(1), Save(1));
    RunSplits(c1, [Read(0), Swap(0), Save(0)], [Read(1), Swap(1), Save(1)]);
    assert CLASH == [Lookup(0)] + ([Read(0), Swap(0), Save(0)] + [Read(1), Swap(1), Save(1)]);
    RunSplits(c, [Lookup(0)], [Read(0), Swap(0), Save(0)] + [Read(1), Swap(1), Save(1)]);
    assert Run(c, [Lookup(0)]) == Run(c1, []) == c1;
  }

  lemma {:induction false} RunSplits(c: Cluster, a: seq<Action>, b: seq<Action>)
    ensures Run(c, a + b) == Run(Run(c, a), b)
    decreases |a|
  {
    if a == [] {
      assert a + b == b;
    } else {
      assert (a + b)[1..] == a[1..] + b;
      RunSplits(Step(c, a[0]), a[1..], b);
    }
  }

  ghost predicate Among(actions: seq<Action>, addresses: set<string>) {
    forall i :: 0 <= i < |actions| && actions[i].Begin? ==> actions[i].addr in addresses
  }

  /** A set of node addresses is safe under every interleaving if and only if it lacks the counter's key. */
  lemma SafeAddressesIff(addresses: set<string>)
    ensures (forall actions: seq<Action> :: Among(actions, addresses) ==> IdsSafe(Run(START, actions))) <==> "next_id" !in addresses
  {
    hide Run, IdsSafe;
    if "next_id" in addresses {
      var before := [Begin(0, "next_id"), Begin(1, "next_id"), Lookup(1)];
      CounterKeyClash("next_id");
      RunSplits(START, before, CLASH);
      assert Among(before + CLASH, addresses);
    } else {
      forall actions: seq<Action> | Among(actions, addresses) ensures IdsSafe(Run(START, actions)) {
        NodeIdsSafe(actions);
      }
    }
  }

  // ---- sequence numbers of the nodes that got their ids here ----

  /** The processes that draw have their ids, and no two of them run under one address. */
  ghost predicate Drawing(c: Cluster, schedule: seq<nat>) {
    && (forall k :: 0 <= k < |schedule| ==> schedule[k] in c.processes && c.processes[schedule[k]].phase.Returned?)
    && (forall j, k :: 0 <= j < |schedule| && 0 <= k < |schedule| && schedule[j] != schedule[k] ==>
                         schedule[j] in c.processes && schedule[k] in c.processes
                         && c.processes[schedule[j]].addr != c.processes[schedule[k]].addr)
  }

  /** The node ids in the order their processes draw. */
  ghost function Nodes(c: Cluster, schedule: seq<nat>): seq<nat>
    requires Drawing(c, schedule)
  {
    seq(|schedule|, k requires 0 <= k < |schedule| => c.processes[schedule[k]].phase.id)
  }

  lemma {:induction false} CountNodes(c: Cluster, schedule: seq<nat>, node: nat, pid: nat)
    requires Drawing(c, schedule)
    requires forall k :: 0 <= k < |schedule| && c.processes[schedule[k]].phase.id == node ==> schedule[k] == pid
    ensures Count(Nodes(c, schedule), node) <= Count(schedule, pid)
  {
    if schedule != [] {
      var n := |schedule| - 1;
      CountNodes(c, schedule[..n], node, pid);
      assert Nodes(c, schedule)[..n] == Nodes(c, schedule[..n]);
    }
  }

  lemma NodesWithinCapacity(c: Cluster, schedule: seq<nat>)
    requires IdsSafe(c) && Drawing(c, schedule) && forall pid: nat :: Count(schedule, pid) < LOCAL_RANGE
    ensures WithinCapacity(Nodes(c, schedule))
  {
    hide Count;
    var nodes := Nodes(c, schedule);
    forall node: nat ensures Count(nodes, node) < LOCAL_RANGE {
      if k :| 0 <= k < |schedule| && c.processes[schedule[k]].phase.id == node {
        CountNodes(c, schedule, node, schedule[k]);
        assert Count(schedule, schedule[k]) < LOCAL_RANGE;
      } else {
        CountNodes(c, schedule, node, 0);
        assert Count(schedule, 0) < LOCAL_RANGE;
      }
    }
  }

  /** Sequencers built with ids returned to different addresses never draw the same number, in any order of
      draws below 2^40 each. */
  lemma NodesNeverCollide(actions: seq<Action>, schedule: seq<nat>, i: nat, j: nat)
    requires AddressesAvoidCounter(actions) && Drawing(Run(START, actions), schedule)
    requires (forall pid: nat :: Count(schedule, pid) < LOCAL_RANGE) && i < j < |schedule|
    ensures var drawn := RunDraws(Nodes(Run(START, actions), schedule)).drawn;
            |drawn| == |schedule| && drawn[i].number != drawn[j].number
  {
    NodeIdsSafe(actions);
    hide Run, IdsSafe, RunDraws;
    NodesWithinCapacity(Run(START, actions), schedule);
    SequenceNumbersUnique(Nodes(Run(START, actions), schedule), i, j);
  }

  // ---- a registered address keeps its id ----

  /** The address is registered under the id, and nobody is still allocating for it. */
  ghost predicate Settled(c: Cluster, addr: string, id: nat) {
    && REGISTRY_PREFIX + addr in c.store.slots && c.store.slots[REGISTRY_PREFIX + addr].content == Registered(id, addr)
    && forall p <- c.processes :: c.processes[p].addr == addr ==>
         c.processes[p].phase.LookingUp? || c.processes[p].phase.Returned? || c.processes[p].phase.Refused?
  }

  /** A later start returns the stored id and leaves the store, counter included, alone. */
  lemma RestartReturnsSameId(c: Cluster, pid: nat, addr: string, id: nat)
    requires REGISTRY_PREFIX + addr in c.store.slots && c.store.slots[REGISTRY_PREFIX + addr].content == Registered(id, addr)
    requires pid !in c.processes && addr != ""
    ensures var d := Step(Step(c, Begin(pid, addr)), Lookup(pid));
            pid in d.processes && d.processes[pid] == Process(addr, Returned(id)) && d.store == c.store && d.granted == c.granted
  {
  }

  /** Whoever started for the address since then and returned has the id, and nothing was granted to it since. */
  ghost predicate KeepsId(c: Cluster, d: Cluster, addr: string, id: nat) {
    && Settled(d, addr, id)
    && (forall p <- c.processes :: p in d.processes && d.processes[p].addr == c.processes[p].addr
                                   && (c.processes[p].phase.Returned? ==> d.processes[p] == c.processes[p]))
    && (forall p <- d.processes :: d.processes[p].addr == addr && d.processes[p].phase.Returned? ==>
          d.processes[p].phase.id == id || (p in c.processes && c.processes[p] == d.processes[p]))
    && c.granted <= d.granted && forall i :: |c.granted| <= i < |d.granted| ==> d.granted[i].addr != addr
  }

  /** What a step can touch: the process it names, the counter while that process swaps, and the registry entry of
      its address while it saves. */
  lemma StepTouches(d: Cluster, a: Action)
    ensures var e := Step(d, a);
            && (forall p: nat :: p != a.pid ==> (p in e.processes <==> p in d.processes) && (p in d.processes ==> e.processes[p] == d.processes[p]))
            && (a.pid in d.processes ==> a.pid in e.processes && e.processes[a.pid].addr == d.processes[a.pid].addr)
            && (a.pid in d.processes && d.processes[a.pid].phase.Returned? ==> e.processes[a.pid] == d.processes[a.pid])
            && (a.pid !in d.processes && a.pid in e.processes ==> e.processes[a.pid].phase.LookingUp?)
            && (e.granted == d.granted
                || (a.pid in d.processes && d.processes[a.pid].phase.Swapping? && |e.granted| == |d.granted| + 1
                    && d.granted <= e.granted && e.granted[|d.granted|].addr == d.processes[a.pid].addr))
  {
    hide SwapSucceeds, Put;
  }

  lemma StepStore(d: Cluster, a: Action, key: string)
    requires key != COUNTER_KEY
    requires a.pid in d.processes && d.processes[a.pid].phase.Saving? ==> key != REGISTRY_PREFIX + d.processes[a.pid].addr
    ensures var e := Step(d, a);
            (key in e.store.slots <==> key in d.store.slots) && (key in d.store.slots ==> e.store.slots[key] == d.store.slots[key])
  {
    hide SwapSucceeds;
  }

  /** A lookup that finds an entry returns it; a finished or refused start stays so. */
  lemma StepPhase(d: Cluster, a: Action, addr: string, id: nat)
    requires Settled(d, addr, id) && a.pid in Step(d, a).processes && Step(d, a).processes[a.pid].addr == addr
    ensures var ph := Step(d, a).processes[a.pid].phase;
            && (ph.LookingUp? || ph.Returned? || ph.Refused?)
            && (ph.Returned? ==> ph.id == id || (a.pid in d.processes && d.processes[a.pid].phase == ph))
  {
    hide SwapSucceeds, Put;
  }

  lemma StepKeepsId(c: Cluster, d: Cluster, a: Action, addr: string, id: nat)
    requires KeepsId(c, d, addr, id) && addr != "next_id"
    ensures KeepsId(c, Step(d, a), addr, id)
  {
    RegistryKeys(addr, "next_id");
    StepTouches(d, a);
    if a.pid in d.processes {
      RegistryKeys(addr, d.processes[a.pid].addr);
    }
    StepStore(d, a, REGISTRY_PREFIX + addr);
    if a.pid in Step(d, a).processes && Step(d, a).processes[a.pid].addr == addr {
      StepPhase(d, a, addr, id);
    }
    hide Step;
  }

  lemma {:induction false} RunKeepsId(c: Cluster, d: Cluster, actions: seq<Action>, addr: string, id: nat)
    requires KeepsId(c, d, addr, id) && addr != "next_id"
    ensures KeepsId(c, Run(d, actions), addr, id)
    decreases |actions|
  {
    hide KeepsId, Step;
    if actions != [] {
      StepKeepsId(c, d, actions[0], addr, id);
      RunKeepsId(c, Step(d, actions[0]), actions[1..], addr, id);
    }
  }

  /** Once an address is registered and nobody is allocating for it, every later start that returns gets that
      same id, whatever the other nodes do, and no further id is ever taken for it. */
  lemma RegisteredIdIsKept(c: Cluster, actions: seq<Action>, addr: string, id: nat, pid: nat)
    requires Settled(c, addr, id) && addr != "next_id" && pid !in c.processes
    ensures var d := Run(c, actions);
            && (pid in d.processes && d.processes[pid].addr == addr && d.processes[pid].phase.Returned? ==>
                  d.processes[pid].phase.id == id)
            && c.granted <= d.granted && forall i :: |c.granted| <= i < |d.granted| ==> d.granted[i].addr != addr
  {
    RunKeepsId(c, c, actions, addr, id);
  }

  /** The condition is needed: a start of the same address that was already past its lookup replaces the entry. */
  lemma LateSaveReplacesId(c: Cluster, late: nat, pid: nat, addr: string)
    requires late in c.processes && c.processes[late].addr == addr && c.processes[late].phase.Saving?
    requires pid !in c.processes && addr != ""
    ensures var d := Step(Step(Step(c, Save(late)), Begin(pid, addr)), Lookup(pid));
            pid in d.processes && d.processes[pid] == Process(addr, Returned(c.processes[late].phase.id))
  {
    var e := Step(c, Save(late));
    assert e.store.slots[REGISTRY_PREFIX + addr].content == Registered(c.processes[late].phase.id, addr);
  }
}
