/** Concurrent dispatches, checkpoint records, flushes and crashes, one lock-protected or database step at a
    time (biz/service/event_pipeline.go, biz/service/checkpoint_manager.go). */
module PipelineRuns {
  import opened EventLogs
  import opened Checkpoints
  import opened Pipelines

  /** How far the goroutine holding a processor-and-symbol lock has got with its event. */
  datatype Phase = Idle | Entered(event: Event) | Checked(event: Event) | Processed(event: Event) | Written(event: Event)

  /** One processor and symbol: its offset, the goroutine inside its lock (at most one), and, to tell what
      happened, the arrivals and applied events since the last start and every event ever accepted. */
  datatype Lane = Lane(offset: nat, phase: Phase, arrivals: seq<Arrival>, applied: seq<Event>, history: seq<Event>)

  /** A checkpoint as far as recovery is concerned. */
  datatype Mark = Mark(key: Key, number: nat)

  /** `memory` and `flushes` belong to the running process and are lost in a crash, `stored` is in the
      database. */
  datatype World = World(lanes: map<Key, Lane>, memory: map<string, Mark>, flushes: map<nat, set<Mark>>, stored: map<Key, nat>)

  /** The steps between two of which another goroutine may run. */
  datatype Move = Enter(event: Event) | Check | Process(ok: bool) | WriteOffset

  /** `Finish` records a checkpoint when a manager is set. A snapshot copies the memory under its lock; its
      entries are saved in any order, interleaved with everything else, until one save fails. */
  datatype Action =
    | Dispatch(key: Key, move: Move)
    | Finish(key: Key, recorded: bool)
    | Snapshot(flush: nat)
    | Save(flush: nat, mark: Mark, ok: bool)
    | Crash

  const FRESH := Lane(0, Idle, [], [], [])

  const START := World(map[], map[], map[], map[])

  function LaneOf(w: World, k: Key): Lane {
    if k in w.lanes then w.lanes[k] else FRESH
  }

  function Arrived(l: Lane, e: Event, ok: bool): Lane {
    l.(arrivals := l.arrivals + [Arrival(e, ok)])
  }

  /** Moves that do not fit leave the lane as it is. */
  function Moved(l: Lane, m: Move): Lane {
    match m
    case Enter(e) => if l.phase.Idle? then l.(phase := Entered(e)) else l
    case Check =>
      if !l.phase.Entered? then l
      else if Number(l.phase.event) <= l.offset then Arrived(l, l.phase.event, true).(phase := Idle)
      else l.(phase := Checked(l.phase.event))
    case Process(ok) =>
      if !l.phase.Checked? then l
      else if !ok then Arrived(l, l.phase.event, false).(phase := Idle)
      else
        var e := l.phase.event;
        Arrived(l, e, true).(phase := Processed(e), applied := l.applied + [e], history := l.history + [e])
    case WriteOffset =>
      if l.phase.Processed? then l.(offset := Number(l.phase.event), phase := Written(l.phase.event)) else l
  }

  function Restarted(l: Lane): Lane {
    FRESH.(history := l.history)
  }

  function Saved(w: World, f: nat, m: Mark, ok: bool): World
    requires f in w.flushes
  {
    if !ok || !Saveable(m.key) then w.(flushes := w.flushes - {f})
    else w.(stored := w.stored[m.key := m.number], flushes := w.flushes[f := w.flushes[f] - {m}])
  }

  function Finished(w: World, k: Key, recorded: bool): World {
    var l := LaneOf(w, k);
    if !l.phase.Written? then w
    else
      var mark := Mark(k, Number(l.phase.event));
      w.(lanes := w.lanes[k := l.(phase := Idle)],
         memory := if recorded then w.memory[KeyText(k) := mark] else w.memory)
  }

  function Step(w: World, a: Action): World {
    match a
    case Dispatch(k, m) =>
      if m.Enter? && SymbolOf(m.event) != k.symbol then w else w.(lanes := w.lanes[k := Moved(LaneOf(w, k), m)])
    case Finish(k, recorded) => Finished(w, k, recorded)
    case Snapshot(f) => if f in w.flushes then w else w.(flushes := w.flushes[f := w.memory.Values])
    case Save(f, m, ok) => if f in w.flushes && m in w.flushes[f] then Saved(w, f, m, ok) else w
    case Crash => World(map k <- w.lanes :: Restarted(w.lanes[k]), map[], map[], w.stored)
  }

  function Run(w: World, actions: seq<Action>): World
    decreases |actions|
  {
    if actions == [] then w else Run(Step(w, actions[0]), actions[1..])
  }

  // ---- what every interleaving keeps ----

  /** What was applied is the sequential delivery of the arrivals in lock order, and outside the window
      between accepting and writing, the offset is the one of that delivery. */
  ghost predicate LaneOk(l: Lane) {
    var d := DeliveredAll(l.arrivals);
    && l.applied == d.applied
    && (l.phase.Processed? || l.offset == d.offset)
    && (l.phase.Checked? ==> Number(l.phase.event) > l.offset)
    && (l.phase.Processed? || l.phase.Written? ==> l.phase.event in l.history && Number(l.phase.event) == d.offset)
  }

  /** The number of an event the processor has accepted, in this life of the process or an earlier one. */
  ghost predicate Accepted(l: Lane, number: nat) {
    exists e <- l.history :: Number(e) == number
  }

  ghost predicate MarkOk(w: World, m: Mark) {
    Accepted(LaneOf(w, m.key), m.number)
  }

  ghost predicate MarksOk(w: World) {
    && (forall t <- w.memory :: MarkOk(w, w.memory[t]))
    && (forall f <- w.flushes, m <- w.flushes[f] :: MarkOk(w, m))
    && (forall k <- w.stored :: MarkOk(w, Mark(k, w.stored[k])))
  }

  ghost predicate LanesOk(w: World) {
    forall k <- w.lanes :: LaneOk(w.lanes[k])
  }

  lemma DeliveredOne(arrivals: seq<Arrival>, e: Event, ok: bool)
    ensures DeliveredAll(arrivals + [Arrival(e, ok)]) == Delivered(DeliveredAll(arrivals), e, ok)
  {
    assert (arrivals + [Arrival(e, ok)])[..|arrivals|] == arrivals;
  }

  lemma MoveKeepsLane(l: Lane, m: Move)
    requires LaneOk(l)
    ensures LaneOk(Moved(l, m)) && l.history <= Moved(l, m).history
  {
    hide DeliveredAll;
    if l.phase.Entered? {
      DeliveredOne(l.arrivals, l.phase.event, true);
    } else if l.phase.Checked? && m.Process? {
      DeliveredOne(l.arrivals, l.phase.event, m.ok);
    }
  }

  /** Marks stay good while histories grow and no new mark appears. */
  lemma MarksKept(w: World, v: World)
    requires MarksOk(w)
    requires forall t <- v.memory :: t in w.memory && v.memory[t] == w.memory[t]
    requires forall f <- v.flushes :: f in w.flushes && v.flushes[f] == w.flushes[f]
    requires v.stored == w.stored
    requires forall k: Key :: LaneOf(w, k).history <= LaneOf(v, k).history
    ensures MarksOk(v)
  {
    forall m: Mark | MarkOk(w, m) ensures MarkOk(v, m) {
      var e :| e in LaneOf(w, m.key).history && Number(e) == m.number;
      assert LaneOf(w, m.key).history <= LaneOf(v, m.key).history;
      assert e in LaneOf(v, m.key).history;
    }
  }

  lemma DispatchKeeps(w: World, k: Key, m: Move)
    requires LanesOk(w) && MarksOk(w)
    ensures var v := w.(lanes := w.lanes[k := Moved(LaneOf(w, k), m)]); LanesOk(v) && MarksOk(v)
  {
    var v := w.(lanes := w.lanes[k := Moved(LaneOf(w, k), m)]);
    assert LaneOk(LaneOf(w, k));
    MoveKeepsLane(LaneOf(w, k), m);
    hide Moved, LaneOk, MarksOk;
    MarksKept(w, v);
  }

  lemma FinishKeeps(w: World, k: Key, recorded: bool)
    requires LanesOk(w) && MarksOk(w)
    ensures var v := Finished(w, k, recorded); LanesOk(v) && MarksOk(v)
  {
    var l, v := LaneOf(w, k), Finished(w, k, recorded);
    assert LaneOk(l);
    hide DeliveredAll;
    if l.phase.Written? {
      assert Accepted(l, Number(l.phase.event));
      hide Accepted;
      forall m: Mark ensures MarkOk(v, m) <==> MarkOk(w, m) {
        assert LaneOf(v, m.key).history == LaneOf(w, m.key).history;
        SameHistory(LaneOf(v, m.key), LaneOf(w, m.key), m.number);
      }
    }
  }

  lemma SameHistory(l: Lane, r: Lane, number: nat)
    requires l.history == r.history
    ensures Accepted(l, number) == Accepted(r, number)
  {
  }

  lemma SaveKeeps(w: World, f: nat, m: Mark, ok: bool)
    requires MarksOk(w) && f in w.flushes && m in w.flushes[f]
    ensures MarksOk(Saved(w, f, m, ok))
  {
    hide Accepted;
    var v := Saved(w, f, m, ok);
    assert MarkOk(w, m);
    assert forall x: Mark :: MarkOk(v, x) <==> MarkOk(w, x);
  }

  lemma SnapshotKeeps(w: World, f: nat)
    requires MarksOk(w) && f !in w.flushes
    ensures MarksOk(Step(w, Snapshot(f)))
  {
    hide Accepted;
    var v := Step(w, Snapshot(f));
    assert forall x: Mark :: MarkOk(v, x) <==> MarkOk(w, x);
  }

  lemma CrashKeeps(w: World)
    requires MarksOk(w)
    ensures LanesOk(Step(w, Crash)) && MarksOk(Step(w, Crash))
  {
    MarksKept(w, Step(w, Crash));
  }

  lemma StepKeeps(w: World, a: Action)
    requires LanesOk(w) && MarksOk(w)
    ensures LanesOk(Step(w, a)) && MarksOk(Step(w, a))
  {
    hide LaneOk, MarksOk, Moved, Finished, Saved;
    match a
    case Dispatch(k, m) => DispatchKeeps(w, k, m);
    case Finish(k, recorded) => FinishKeeps(w, k, recorded);
    case Snapshot(f) =>
      if f !in w.flushes {
        SnapshotKeeps(w, f);
      }
    case Save(f, m, ok) =>
      if f in w.flushes && m in w.flushes[f] {
        SaveKeeps(w, f, m, ok);
        SavedLanes(w, f, m, ok);
      }
    case Crash => CrashKeeps(w);
  }

  lemma SavedLanes(w: World, f: nat, m: Mark, ok: bool)
    requires f in w.flushes
    ensures Saved(w, f, m, ok).lanes == w.lanes
  {
  }

  lemma {:induction false} RunKeeps(w: World, actions: seq<Action>)
    requires LanesOk(w) && MarksOk(w)
    ensures LanesOk(Run(w, actions)) && MarksOk(Run(w, actions))
    decreases |actions|
  {
    hide LanesOk, MarksOk, Step;
    if actions != [] {
      StepKeeps(w, actions[0]);
      RunKeeps(Step(w, actions[0]), actions[1..]);
    }
  }

  ghost predicate Unused(w: World) {
    w == START
  }

  /** Under every interleaving, with failures and crashes, what a processor applied for a symbol since the
      last start is the sequential delivery of what entered its lock, so its numbers strictly increase. */
  lemma DispatchIsSequential(w: World, actions: seq<Action>, k: Key)
    requires Unused(w)
    ensures var l := LaneOf(Run(w, actions), k);
            l.applied == DeliveredAll(l.arrivals).applied && Increasing(l.applied)
  {
    RunKeeps(w, actions);
    hide DeliveredAll, Run;
    DeliveredAllOk(LaneOf(Run(w, actions), k).arrivals);
  }

  /** Whatever flushes overlap or fail, a stored checkpoint is the number of an event already accepted. */
  lemma StoredCheckpointWasApplied(w: World, actions: seq<Action>, k: Key)
    requires Unused(w) && k in Run(w, actions).stored
    ensures exists e <- LaneOf(Run(w, actions), k).history :: Number(e) == Run(w, actions).stored[k]
  {
    RunKeeps(w, actions);
    hide Run;
    assert MarkOk(Run(w, actions), Mark(k, Run(w, actions).stored[k]));
  }
}
