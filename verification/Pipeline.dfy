/** Progress checkpoints, recorded in memory and flushed to the database
    (biz/service/checkpoint_manager.go, biz/dal/pg/checkpoint_repo.go). */
module Checkpoints {
  datatype Key = Key(processor: string, symbol: string)

  datatype Checkpoint = Checkpoint(key: Key, number: nat, kafkaOffset: int, partition: int)

  /** The in-memory map key; different keys can share a text when names hold colons. */
  function KeyText(k: Key): string {
    k.processor + ":" + k.symbol
  }

  /** Processors whose names hold no colon never share an entry. */
  lemma KeyTextInjective(a: Key, b: Key)
    requires ':' !in a.processor && ':' !in b.processor && KeyText(a) == KeyText(b)
    ensures a == b
  {
    var m, n, x := |a.processor|, |b.processor|, KeyText(a);
    assert x[m] == ':' && x[n] == ':';
    assert forall i :: 0 <= i < m ==> x[i] == a.processor[i];
    assert forall i :: 0 <= i < n ==> x[i] == b.processor[i];
    assert m == n;
    assert a.processor == x[..m] && b.processor == x[..n] && a.symbol == x[m + 1..] && b.symbol == x[n + 1..];
  }

  /** With a colon in a name two keys can share one. */
  lemma KeyTextsCollide()
    ensures KeyText(Key("a:b", "c")) == KeyText(Key("a", "b:c"))
  {
    assert "a:b" + ":" + "c" == "a" + ":" + "b:c";
  }

  /** `SaveCheckpoint` refuses empty names. */
  predicate Saveable(k: Key) {
    k.processor != "" && k.symbol != ""
  }

  class CheckpointManager {
    var checkpoints: map<string, Checkpoint>
    var stored: map<Key, Checkpoint>

    ghost predicate Valid()
      reads this
    {
      forall t <- checkpoints :: KeyText(checkpoints[t].key) == t
    }

    constructor (stored: map<Key, Checkpoint>)
      ensures Valid() && checkpoints == map[] && this.stored == stored
    {
      checkpoints, this.stored := map[], stored;
    }

    method RecordEventProcessed(cp: Checkpoint)
      requires Valid()
      modifies this`checkpoints
      ensures Valid() && checkpoints == old(checkpoints)[KeyText(cp.key) := cp]
    {
      checkpoints := checkpoints[KeyText(cp.key) := cp];
    }

    /** Saves stop at the first error: a key that cannot be saved, or the database failing after `budget`
        writes. The snapshot is written in any order. */
    method FlushCheckpoints(budget: nat) returns (ok: bool)
      requires Valid()
      modifies this`stored
      ensures forall k <- stored :: (k in old(stored) && stored[k] == old(stored)[k])
                                 || (KeyText(k) in checkpoints && checkpoints[KeyText(k)] == stored[k] && stored[k].key == k)
      ensures forall k <- old(stored) :: k in stored
      ensures forall k <- stored :: (k in old(stored) && stored[k] == old(stored)[k]) || (k.processor != "" && k.symbol != "")
      ensures ok ==> forall t <- checkpoints :: checkpoints[t].key in stored && stored[checkpoints[t].key] == checkpoints[t]
    {
      var toFlush := checkpoints.Keys;
      var written := 0;
      while toFlush != {}
        invariant toFlush <= checkpoints.Keys
        invariant forall k <- old(stored) :: k in stored
        invariant forall k <- stored :: (k in old(stored) && stored[k] == old(stored)[k]) || (k.processor != "" && k.symbol != "")
        invariant forall k <- stored :: (k in old(stored) && stored[k] == old(stored)[k])
                                     || (KeyText(k) in checkpoints && checkpoints[KeyText(k)] == stored[k] && stored[k].key == k)
        invariant forall t <- checkpoints.Keys - toFlush ::
                    checkpoints[t].key in stored && stored[checkpoints[t].key] == checkpoints[t]
        decreases toFlush
      {
        var t :| t in toFlush;
        var cp := checkpoints[t];
        if !Saveable(cp.key) || written >= budget {
          return false;
        }
        stored := stored[cp.key := cp];
        written := written + 1;
        toFlush := toFlush - {t};
      }
      return true;
    }
  }
}

/** Dispatching events to processors with a per-processor, per-symbol duplicate check
    (biz/service/event_pipeline.go). */
module Pipelines {
  import opened Options
  import opened EventLogs
  import opened Checkpoints

  /** What one processor has done for one symbol: the last sequence number it got through, and the events
      its `ProcessEvent` accepted. */
  datatype Slot = Slot(offset: nat, applied: seq<Event>)

  function Delivered(s: Slot, e: Event, ok: bool): Slot {
    if Number(e) <= s.offset || !ok then s else Slot(Number(e), s.applied + [e])
  }

  /** An event reaching a processor, and whether `ProcessEvent` would accept it. */
  datatype Arrival = Arrival(event: Event, ok: bool)

  function DeliveredAll(arrivals: seq<Arrival>): Slot {
    if arrivals == [] then Slot(0, [])
    else
      var a := arrivals[|arrivals| - 1];
      Delivered(DeliveredAll(arrivals[..|arrivals| - 1]), a.event, a.ok)
  }

  ghost predicate Increasing(es: seq<Event>) {
    forall i, j :: 0 <= i < j < |es| ==> Number(es[i]) < Number(es[j])
  }

  ghost predicate SlotOk(s: Slot) {
    && Increasing(s.applied)
    && (forall i :: 0 <= i < |s.applied| ==> 0 < Number(s.applied[i]) <= s.offset)
    && s.offset == if s.applied == [] then 0 else Number(s.applied[|s.applied| - 1])
  }

  lemma {:induction false} DeliveredAllOk(arrivals: seq<Arrival>)
    ensures SlotOk(DeliveredAll(arrivals))
  {
    if arrivals != [] {
      DeliveredAllOk(arrivals[..|arrivals| - 1]);
    }
  }

  /** Whether the i-th arrival was applied when it arrived. */
  predicate AppliedAt(arrivals: seq<Arrival>, i: nat)
    requires i < |arrivals|
  {
    arrivals[i].ok && Number(arrivals[i].event) > DeliveredAll(arrivals[..i]).offset
  }

  /** Applied are exactly the arrivals that succeed, are numbered above 0 and exceed every earlier applied
      one; the applied events are these, in arrival order. */
  lemma {:induction false} AppliedExactly(arrivals: seq<Arrival>, i: nat)
    requires i < |arrivals|
    ensures AppliedAt(arrivals, i) <==>
              && arrivals[i].ok && Number(arrivals[i].event) > 0
              && forall j :: 0 <= j < i && AppliedAt(arrivals, j) ==> Number(arrivals[j].event) < Number(arrivals[i].event)
  {
    OffsetIsMaximum(arrivals, i);
  }

  lemma {:induction false} OffsetIsMaximum(arrivals: seq<Arrival>, n: nat)
    requires n <= |arrivals|
    ensures forall j :: 0 <= j < n && AppliedAt(arrivals, j) ==> Number(arrivals[j].event) <= DeliveredAll(arrivals[..n]).offset
    ensures DeliveredAll(arrivals[..n]).offset > 0 ==>
              exists j :: 0 <= j < n && AppliedAt(arrivals, j) && Number(arrivals[j].event) == DeliveredAll(arrivals[..n]).offset
  {
    if n > 0 {
      OffsetIsMaximum(arrivals, n - 1);
      assert arrivals[..n][..n - 1] == arrivals[..n - 1];
      if AppliedAt(arrivals, n - 1) {
        assert DeliveredAll(arrivals[..n]).offset == Number(arrivals[n - 1].event);
      } else if DeliveredAll(arrivals[..n]).offset > 0 {
        var j :| 0 <= j < n - 1 && AppliedAt(arrivals, j) && Number(arrivals[j].event) == DeliveredAll(arrivals[..n - 1]).offset;
        assert AppliedAt(arrivals, j);
      }
    }
  }

  function AppliedEvents(arrivals: seq<Arrival>, n: nat): seq<Event>
    requires n <= |arrivals|
  {
    if n == 0 then []
    else AppliedEvents(arrivals, n - 1) + if AppliedAt(arrivals, n - 1) then [arrivals[n - 1].event] else []
  }

  lemma {:induction false} AppliedInOrder(arrivals: seq<Arrival>, n: nat)
    requires n <= |arrivals|
    ensures DeliveredAll(arrivals[..n]).applied == AppliedEvents(arrivals, n)
  {
    if n > 0 {
      AppliedInOrder(arrivals, n - 1);
      assert arrivals[..n][..n - 1] == arrivals[..n - 1];
    }
  }

  /** Redelivering an event that was applied changes nothing, whether it would succeed or not. */
  lemma RedeliveryIsNoOp(arrivals: seq<Arrival>, e: Event, ok: bool)
    requires e in DeliveredAll(arrivals).applied
    ensures DeliveredAll(arrivals + [Arrival(e, ok)]) == DeliveredAll(arrivals)
  {
    DeliveredAllOk(arrivals);
    assert (arrivals + [Arrival(e, ok)])[..|arrivals|] == arrivals;
  }

  function EventsOf(arrivals: seq<Arrival>): seq<Event> {
    seq(|arrivals|, i requires 0 <= i < |arrivals| => arrivals[i].event)
  }

  ghost predicate InOrder(arrivals: seq<Arrival>) {
    && (forall i :: 0 <= i < |arrivals| ==> arrivals[i].ok && Number(arrivals[i].event) > 0)
    && (forall i, j :: 0 <= i < j < |arrivals| ==> Number(arrivals[i].event) < Number(arrivals[j].event))
  }

  /** Nothing is lost exactly when everything succeeds and arrives in increasing order: an event overtaken
      by a later number of its symbol is dropped for good. */
  lemma {:induction false} NothingLostIff(arrivals: seq<Arrival>)
    ensures DeliveredAll(arrivals).applied == EventsOf(arrivals) <==> InOrder(arrivals)
    ensures |DeliveredAll(arrivals).applied| <= |arrivals|
  {
    if arrivals != [] {
      var init, a := arrivals[..|arrivals| - 1], arrivals[|arrivals| - 1];
      NothingLostIff(init);
      DeliveredAllOk(init);
      DeliveredAllOk(arrivals);
      InOrderLast(init, a);
      assert arrivals == init + [a];
      var s := DeliveredAll(init);
      if DeliveredAll(arrivals).applied == EventsOf(init) + [a.event] {
        assert |s.applied| == |init|;
        assert s.applied == (EventsOf(init) + [a.event])[..|init|] == EventsOf(init);
      }
    }
  }

  lemma InOrderLast(init: seq<Arrival>, a: Arrival)
    ensures EventsOf(init + [a]) == EventsOf(init) + [a.event] && |EventsOf(init)| == |init|
    ensures InOrder(init + [a]) <==> InOrder(init) && a.ok && 0 < Number(a.event)
                                     && (init != [] ==> Number(init[|init| - 1].event) < Number(a.event))
  {
    var all := init + [a];
    assert EventsOf(all) == EventsOf(init) + [a.event];
    assert forall i :: 0 <= i < |init| ==> all[i] == init[i];
    if InOrder(all) {
      if init != [] {
        assert Number(all[|init| - 1].event) < Number(all[|init|].event);
      }
    }
  }

  // ---- the pipeline object ----

  /** Transport metadata; absent when an event is replayed from the log. */
  datatype Context = Context(offset: int, partition: int)

  /** A dispatch with a checkpoint manager and no context dereferences nil after applying the event. */
  datatype Outcome = Done | Failed | Panicked

  /** What one processor made of one event. */
  datatype Verdict = Skipped | Rejected | Accepted

  /** The processor of the key has applied an event of this number. */
  ghost predicate NumberApplied(applied: map<Key, seq<Event>>, k: Key, number: nat) {
    k in applied && exists e <- applied[k] :: Number(e) == number
  }

  /** Every recorded checkpoint is of an event its own processor has applied. */
  ghost predicate Honest(checkpoints: map<string, Checkpoint>, applied: map<Key, seq<Event>>) {
    forall t <- checkpoints :: NumberApplied(applied, checkpoints[t].key, checkpoints[t].number)
  }

  lemma HonestGrows(checkpoints: map<string, Checkpoint>, applied: map<Key, seq<Event>>, k: Key, e: Event)
    requires Honest(checkpoints, applied)
    ensures var more := applied[k := (if k in applied then applied[k] else []) + [e]];
            Honest(checkpoints, more) && NumberApplied(more, k, Number(e))
  {
    var more := applied[k := (if k in applied then applied[k] else []) + [e]];
    assert more[k][|more[k]| - 1] == e;
    forall t <- checkpoints ensures NumberApplied(more, checkpoints[t].key, checkpoints[t].number) {
      var key := checkpoints[t].key;
      var x :| x in applied[key] && Number(x) == checkpoints[t].number;
      assert x in more[key];
    }
  }

  /** Slots after a sequence of events, given which of them the processor accepts. */
  function DeliveredSeq(s: Slot, es: seq<Event>, processor: string, ok: (string, Event) -> bool): Slot {
    if es == [] then s
    else
      var e := es[|es| - 1];
      Delivered(DeliveredSeq(s, es[..|es| - 1], processor, ok), e, ok(processor, e))
  }

  /** The logged events that can be unmarshalled; replay skips the others. */
  function Decoded(es: seq<Event>, decodes: Event -> bool): seq<Event> {
    if es == [] then []
    else
      var e := es[|es| - 1];
      Decoded(es[..|es| - 1], decodes) + if decodes(e) then [e] else []
  }

  lemma {:induction false} DecodedMembers(es: seq<Event>, decodes: Event -> bool, e: Event)
    ensures e in Decoded(es, decodes) <==> e in es && decodes(e)
  {
    if es != [] {
      var n := |es| - 1;
      DecodedMembers(es[..n], decodes, e);
      assert es == es[..n] + [es[n]];
    }
  }

  /** Decoding keeps the order: it goes through a log piece by piece. */
  lemma {:induction false} DecodedInOrder(a: seq<Event>, b: seq<Event>, decodes: Event -> bool)
    ensures Decoded(a + b, decodes) == Decoded(a, decodes) + Decoded(b, decodes)
  {
    if b == [] {
      assert a + b == a;
    } else {
      var n := |b| - 1;
      assert (a + b)[..|a + b| - 1] == a + b[..n];
      DecodedInOrder(a, b[..n], decodes);
    }
  }

  lemma {:induction false} AllDecoded(es: seq<Event>, decodes: Event -> bool)
    requires forall i :: 0 <= i < |es| ==> decodes(es[i])
    ensures Decoded(es, decodes) == es
  {
    if es != [] {
      var n := |es| - 1;
      AllDecoded(es[..n], decodes);
      assert decodes(es[n]) && es == es[..n] + [es[n]];
    }
  }

  // ---- what a replay applies ----

  /** Events reaching a processor one after the other. */
  function ArrivalsOf(es: seq<Event>, processor: string, ok: (string, Event) -> bool): seq<Arrival> {
    seq(|es|, i requires 0 <= i < |es| => Arrival(es[i], ok(processor, es[i])))
  }

  /** A replay from nothing is the sequential delivery of its events. */
  lemma {:induction false} ReplayIsDelivery(es: seq<Event>, processor: string, ok: (string, Event) -> bool)
    ensures DeliveredSeq(Slot(0, []), es, processor, ok) == DeliveredAll(ArrivalsOf(es, processor, ok))
  {
    if es != [] {
      var n := |es| - 1;
      ReplayIsDelivery(es[..n], processor, ok);
      assert ArrivalsOf(es, processor, ok)[..n] == ArrivalsOf(es[..n], processor, ok);
    }
  }

  /** A replay of events in increasing order, all new and accepted, applies every one of them, in that order. */
  lemma {:induction false} ReplayAppliesAll(s: Slot, es: seq<Event>, processor: string, ok: (string, Event) -> bool)
    requires Increasing(es) && forall i :: 0 <= i < |es| ==> Number(es[i]) > s.offset && ok(processor, es[i])
    ensures var r := DeliveredSeq(s, es, processor, ok);
            r.applied == s.applied + es && r.offset == if es == [] then s.offset else Number(es[|es| - 1])
  {
    if es != [] {
      var n := |es| - 1;
      assert es[..n] + [es[n]] == es;
      ReplayAppliesAll(s, es[..n], processor, ok);
      assert n > 0 ==> Number(es[n - 1]) < Number(es[n]);
      assert s.applied + es[..n] + [es[n]] == s.applied + es;
    } else {
      assert s.applied + es == s.applied;
    }
  }

  class EventPipeline {
    const log: InMemoryEventLog
    const manager: CheckpointManager?
    var processors: seq<string>
    var offsets: map<Key, nat>
    var applied: map<Key, seq<Event>>
    var kafkaOffsets: map<Key, int>
    var processedEventCount: int
    var failedEventCount: int

    ghost predicate Valid()
      reads this, manager
    {
      && (forall i, j :: 0 <= i < j < |processors| ==> processors[i] != processors[j])
      && (manager != null ==> manager.Valid())
    }

    function SlotOf(k: Key): Slot
      reads this`offsets, this`applied
    {
      Slot(if k in offsets then offsets[k] else 0, if k in applied then applied[k] else [])
    }

    ghost predicate Recorded()
      reads this, manager
    {
      manager != null ==> Honest(manager.checkpoints, applied)
    }

    /** Whether a processor would apply the event now. */
    predicate Applies(p: string, e: Event, ok: (string, Event) -> bool)
      reads this`offsets, this`applied
    {
      Number(e) > SlotOf(Key(p, SymbolOf(e))).offset && ok(p, e)
    }

    constructor (log: InMemoryEventLog, manager: CheckpointManager?)
      requires manager != null ==> manager.Valid()
      ensures Valid() && this.log == log && this.manager == manager && processors == []
      ensures forall k: Key :: SlotOf(k) == Slot(0, [])
    {
      this.log, this.manager := log, manager;
      processors, offsets, applied, kafkaOffsets := [], map[], map[], map[];
      processedEventCount, failedEventCount := 0, 0;
    }

    /** The processor accepts the event and the pipeline moves its offset. */
    method Advance(k: Key, e: Event)
      modifies this`offsets, this`applied
      ensures SlotOf(k) == Slot(Number(e), old(SlotOf(k)).applied + [e])
      ensures forall x: Key :: x != k ==> SlotOf(x) == old(SlotOf(x))
      ensures applied == old(applied)[k := (if k in old(applied) then old(applied)[k] else []) + [e]]
    {
      applied := applied[k := (if k in applied then applied[k] else []) + [e]];
      offsets := offsets[k := Number(e)];
    }

    /** The duplicate check, the processor's answer and the new offset. */
    method Offer(p: string, e: Event, ok: (string, Event) -> bool) returns (verdict: Verdict)
      modifies this`offsets, this`applied, this`failedEventCount
      ensures SlotOf(Key(p, SymbolOf(e))) == Delivered(old(SlotOf(Key(p, SymbolOf(e)))), e, ok(p, e))
      ensures forall k: Key :: k != Key(p, SymbolOf(e)) ==> SlotOf(k) == old(SlotOf(k))
      ensures verdict == Accepted <==> old(Applies(p, e, ok))
      ensures verdict == Rejected <==> Number(e) > old(SlotOf(Key(p, SymbolOf(e)))).offset && !ok(p, e)
      ensures verdict == Accepted ==> SlotOf(Key(p, SymbolOf(e))).offset == Number(e)
      ensures verdict == Accepted ==> NumberApplied(applied, Key(p, SymbolOf(e)), Number(e))
      ensures manager != null && Honest(manager.checkpoints, old(applied)) ==> Honest(manager.checkpoints, applied)
      ensures failedEventCount == old(failedEventCount) + if verdict == Rejected then 1 else 0
    {
      hide SlotOf, NumberApplied;
      var k := Key(p, SymbolOf(e));
      var lastSeq := SlotOf(k).offset;
      if Number(e) <= lastSeq {
        return Skipped;
      }
      if !ok(p, e) {
        failedEventCount := failedEventCount + 1;
        return Rejected;
      }
      ghost var before := applied;
      Advance(k, e);
      HonestGrows(map[], before, k, e);
      if manager != null {
        ghost var honest := Honest(manager.checkpoints, before);
        if honest {
          HonestGrows(manager.checkpoints, before, k, e);
        }
      }
      return Accepted;
    }

    /** Offset and checkpoint of an applied event; without a context the manager's call dereferences nil. */
    method Note(k: Key, number: nat, ctx: Option<Context>) returns (fine: bool)
      requires Valid()
      modifies this`kafkaOffsets, this`processedEventCount
      modifies if manager == null then {} else {manager}
      ensures Valid() && (fine <==> manager == null || ctx.Some?)
      ensures kafkaOffsets == if ctx.Some? && ctx.value.offset >= 0 then old(kafkaOffsets)[k := ctx.value.offset] else old(kafkaOffsets)
      ensures processedEventCount == old(processedEventCount) + if fine then 1 else 0
      ensures manager != null ==> manager.stored == old(manager.stored)
      ensures manager != null ==>
                manager.checkpoints ==
                if ctx.Some? then old(manager.checkpoints)[KeyText(k) := Checkpoint(k, number, ctx.value.offset, ctx.value.partition)]
                else old(manager.checkpoints)
    {
      if ctx.Some? && ctx.value.offset >= 0 {
        kafkaOffsets := kafkaOffsets[k := ctx.value.offset];
      }
      if manager != null {
        if ctx.None? {
          return false;
        }
        manager.RecordEventProcessed(Checkpoint(k, number, ctx.value.offset, ctx.value.partition));
      }
      processedEventCount := processedEventCount + 1;
      return true;
    }

    /** The goroutine of one processor, under its lock for the event's symbol. */
    method DispatchTo(p: string, e: Event, ctx: Option<Context>, ok: (string, Event) -> bool) returns (outcome: Outcome)
      requires Valid()
      modifies this`offsets, this`applied, this`kafkaOffsets, this`processedEventCount, this`failedEventCount
      modifies if manager == null then {} else {manager}
      ensures Valid()
      ensures SlotOf(Key(p, SymbolOf(e))) == Delivered(old(SlotOf(Key(p, SymbolOf(e)))), e, ok(p, e))
      ensures forall k: Key :: k != Key(p, SymbolOf(e)) ==> SlotOf(k) == old(SlotOf(k))
      ensures outcome == Panicked <==> manager != null && ctx.None? && old(Applies(p, e, ok))
      ensures outcome == Failed <==> Number(e) > old(SlotOf(Key(p, SymbolOf(e)))).offset && !ok(p, e)
      ensures kafkaOffsets == if old(Applies(p, e, ok)) && ctx.Some? && ctx.value.offset >= 0
                              then old(kafkaOffsets)[Key(p, SymbolOf(e)) := ctx.value.offset] else old(kafkaOffsets)
      ensures failedEventCount == old(failedEventCount) + if outcome == Failed then 1 else 0
      ensures processedEventCount == old(processedEventCount) + if old(Applies(p, e, ok)) && outcome != Panicked then 1 else 0
      ensures manager != null ==> manager.stored == old(manager.stored)
      ensures manager != null && !(old(Applies(p, e, ok)) && ctx.Some?) ==> manager.checkpoints == old(manager.checkpoints)
      ensures manager != null && old(Applies(p, e, ok)) && ctx.Some? ==>
                var k := Key(p, SymbolOf(e));
                && SlotOf(k).offset == Number(e)
                && manager.checkpoints == old(manager.checkpoints)[
                     KeyText(k) := Checkpoint(k, SlotOf(k).offset, ctx.value.offset, ctx.value.partition)]
      ensures old(Recorded()) ==> Recorded()
    {
      hide SlotOf, NumberApplied, Delivered;
      var verdict := Offer(p, e, ok);
      if verdict == Skipped {
        return Done;
      }
      if verdict == Rejected {
        return Failed;
      }
      var fine := Note(Key(p, SymbolOf(e)), Number(e), ctx);
      return if fine then Done else Panicked;
    }

    /** The processors one after the other; each has its own lock and slot. */
    method DispatchAll(e: Event, ctx: Option<Context>, ok: (string, Event) -> bool) returns (outcome: Outcome)
      requires Valid()
      modifies this`offsets, this`applied, this`kafkaOffsets, this`processedEventCount, this`failedEventCount
      modifies if manager == null then {} else {manager}
      ensures Valid()
      ensures outcome == Panicked <==> manager != null && ctx.None? && exists p <- processors :: old(Applies(p, e, ok))
      ensures outcome != Panicked ==> forall p <- processors ::
                SlotOf(Key(p, SymbolOf(e))) == Delivered(old(SlotOf(Key(p, SymbolOf(e)))), e, ok(p, e))
      ensures forall k: Key :: k.symbol != SymbolOf(e) || k.processor !in processors ==> SlotOf(k) == old(SlotOf(k))
      ensures old(Recorded()) ==> Recorded()
      ensures manager != null ==> manager.stored == old(manager.stored)
      ensures manager != null ==> forall t <- manager.checkpoints ::
                || (t in old(manager.checkpoints) && manager.checkpoints[t] == old(manager.checkpoints)[t])
                || (ctx.Some? && exists p <- processors ::
                      (old(Applies(p, e, ok))
                       && manager.checkpoints[t] == Checkpoint(Key(p, SymbolOf(e)), Number(e), ctx.value.offset, ctx.value.partition)))
    {
      hide Delivered, SlotOf, NumberApplied, Honest, KeyText;
      outcome := Done;
      var i := 0;
      while i < |processors|
        invariant 0 <= i <= |processors| && Valid() && outcome != Panicked
        invariant forall j :: 0 <= j < i ==>
                    SlotOf(Key(processors[j], SymbolOf(e))) == Delivered(old(SlotOf(Key(processors[j], SymbolOf(e)))), e, ok(processors[j], e))
        invariant forall j :: 0 <= j < i ==> manager == null || ctx.Some? || !old(Applies(processors[j], e, ok))
        invariant forall k: Key :: (k.symbol != SymbolOf(e) || forall j :: 0 <= j < i ==> processors[j] != k.processor) ==> SlotOf(k) == old(SlotOf(k))
        invariant old(Recorded()) ==> Recorded()
        invariant manager != null ==> manager.stored == old(manager.stored)
        invariant manager != null ==> forall t <- manager.checkpoints ::
                    || (t in old(manager.checkpoints) && manager.checkpoints[t] == old(manager.checkpoints)[t])
                    || (ctx.Some? && exists p <- processors ::
                      (old(Applies(p, e, ok))
                       && manager.checkpoints[t] == Checkpoint(Key(p, SymbolOf(e)), Number(e), ctx.value.offset, ctx.value.partition)))
      {
        var p := processors[i];
        assert SlotOf(Key(p, SymbolOf(e))) == old(SlotOf(Key(p, SymbolOf(e)))) && p in processors;
        var one := DispatchTo(p, e, ctx, ok);
        if one == Panicked {
          return Panicked;
        }
        if one == Failed {
          outcome := Failed;
        }
        i := i + 1;
      }
    }

    /** All processors, then the checkpoint flush; `budget` is how many database writes succeed. */
    method Dispatch(e: Event, ctx: Option<Context>, ok: (string, Event) -> bool, budget: nat) returns (outcome: Outcome)
      requires Valid()
      modifies this`offsets, this`applied, this`kafkaOffsets, this`processedEventCount, this`failedEventCount
      modifies if manager == null then {} else {manager}
      ensures Valid()
      ensures outcome == Panicked <==> manager != null && ctx.None? && exists p <- processors :: old(Applies(p, e, ok))
      ensures outcome != Panicked ==> forall p <- processors ::
                SlotOf(Key(p, SymbolOf(e))) == Delivered(old(SlotOf(Key(p, SymbolOf(e)))), e, ok(p, e))
      ensures forall k: Key :: k.symbol != SymbolOf(e) || k.processor !in processors ==> SlotOf(k) == old(SlotOf(k))
      ensures manager != null ==> forall t <- manager.checkpoints ::
                || (t in old(manager.checkpoints) && manager.checkpoints[t] == old(manager.checkpoints)[t])
                || (ctx.Some? && exists p <- processors ::
                      (old(Applies(p, e, ok))
                       && manager.checkpoints[t] == Checkpoint(Key(p, SymbolOf(e)), Number(e), ctx.value.offset, ctx.value.partition)))
      ensures manager != null ==> forall k <- manager.stored ::
                || (k in old(manager.stored) && manager.stored[k] == old(manager.stored)[k])
                || (outcome == Done && KeyText(k) in manager.checkpoints && manager.checkpoints[KeyText(k)] == manager.stored[k])
      ensures old(Recorded()) ==> Recorded()
      ensures manager != null && old(Recorded()) ==> forall k <- manager.stored ::
                || (k in old(manager.stored) && manager.stored[k] == old(manager.stored)[k])
                || NumberApplied(applied, k, manager.stored[k].number)
    {
      hide Delivered, SlotOf, NumberApplied;
      outcome := DispatchAll(e, ctx, ok);
      if outcome == Done && manager != null {
        var flushed := manager.FlushCheckpoints(budget);
      }
    }

    /** Replay hands every processor the filtered log in order, without a context, skipping what cannot be
        decoded; errors do not stop the loop. With a checkpoint manager set, the first event that is applied
        ends it in a panic. */
    method ProcessEventsFromLog(symbol: string, startSeq: nat, limit: int, decodes: Event -> bool,
                                ok: (string, Event) -> bool, budget: nat)
      returns (outcome: Outcome)
      requires Valid() && log.Valid()
      modifies this`offsets, this`applied, this`kafkaOffsets, this`processedEventCount, this`failedEventCount
      modifies if manager == null then {} else {manager}
      ensures Valid() && outcome != Failed
      ensures var es := Decoded(Limited(Filter(log.events, symbol, startSeq), limit), decodes);
              outcome == Panicked <==> manager != null && exists e <- es, p <- processors :: old(Applies(p, e, ok))
      ensures var es := Decoded(Limited(Filter(log.events, symbol, startSeq), limit), decodes);
              outcome != Panicked ==>
                forall p <- processors :: SlotOf(Key(p, symbol)) == DeliveredSeq(old(SlotOf(Key(p, symbol))), es, p, ok)
      ensures forall k: Key :: k.symbol != symbol || k.processor !in processors ==> SlotOf(k) == old(SlotOf(k))
    {
      hide Filter, Places, SlotOf, Delivered, DeliveredSeq;
      var envelopes := log.GetEventsBySymbol(symbol, startSeq, limit);
      FilterSymbols(log.events, symbol, startSeq);
      var events := UnmarshalEvents(envelopes, decodes);
      forall e <- events ensures SymbolOf(e) == symbol {
        DecodedMembers(envelopes, decodes, e);
      }
      outcome := ReplayEvents(events, symbol, ok, budget);
    }

    /** Unmarshalling has no effect of its own, so it is done for all events before the first is dispatched. */
    method UnmarshalEvents(envelopes: seq<Event>, decodes: Event -> bool) returns (events: seq<Event>)
      ensures events == Decoded(envelopes, decodes)
    {
      events := [];
      var i := 0;
      while i < |envelopes|
        invariant 0 <= i <= |envelopes| && events == Decoded(envelopes[..i], decodes)
      {
        assert envelopes[..i + 1][..i] == envelopes[..i];
        if decodes(envelopes[i]) {
          events := events + [envelopes[i]];
        }
        i := i + 1;
      }
      assert envelopes[..i] == envelopes;
    }

    method ReplayEvents(events: seq<Event>, symbol: string, ok: (string, Event) -> bool, budget: nat) returns (outcome: Outcome)
      requires Valid() && forall e <- events :: SymbolOf(e) == symbol
      modifies this`offsets, this`applied, this`kafkaOffsets, this`processedEventCount, this`failedEventCount
      modifies if manager == null then {} else {manager}
      ensures Valid() && outcome != Failed
      ensures outcome == Panicked <==> manager != null && exists e <- events, p <- processors :: old(Applies(p, e, ok))
      ensures outcome != Panicked ==>
                forall p <- processors :: SlotOf(Key(p, symbol)) == DeliveredSeq(old(SlotOf(Key(p, symbol))), events, p, ok)
      ensures forall k: Key :: k.symbol != symbol || k.processor !in processors ==> SlotOf(k) == old(SlotOf(k))
    {
      hide SlotOf, Delivered;
      var i := 0;
      while i < |events|
        invariant 0 <= i <= |events| && Valid()
        invariant forall p <- processors :: SlotOf(Key(p, symbol)) == DeliveredSeq(old(SlotOf(Key(p, symbol))), events[..i], p, ok)
        invariant forall k: Key :: k.symbol != symbol || k.processor !in processors ==> SlotOf(k) == old(SlotOf(k))
        invariant manager != null ==> forall k: Key :: SlotOf(k) == old(SlotOf(k))
        invariant manager != null ==> forall e <- events[..i], p <- processors :: !old(Applies(p, e, ok))
      {
        assert events[..i + 1][..i] == events[..i];
        var one := Replay(events[i], ok, budget);
        if one == Panicked {
          assert events[i] in events;
          return Panicked;
        }
        i := i + 1;
      }
      assert events[..i] == events;
      return Done;
    }

    /** One event of a replay; a manager survives it only when nobody applies the event. */
    method Replay(e: Event, ok: (string, Event) -> bool, budget: nat) returns (outcome: Outcome)
      requires Valid()
      modifies this`offsets, this`applied, this`kafkaOffsets, this`processedEventCount, this`failedEventCount
      modifies if manager == null then {} else {manager}
      ensures Valid()
      ensures outcome == Panicked <==> manager != null && exists p <- processors :: old(Applies(p, e, ok))
      ensures outcome != Panicked ==> forall p <- processors ::
                SlotOf(Key(p, SymbolOf(e))) == Delivered(old(SlotOf(Key(p, SymbolOf(e)))), e, ok(p, e))
      ensures forall k: Key :: k.symbol != SymbolOf(e) || k.processor !in processors ==> SlotOf(k) == old(SlotOf(k))
      ensures outcome != Panicked && manager != null ==> forall k: Key :: SlotOf(k) == old(SlotOf(k))
    {
      outcome := Dispatch(e, None, ok, budget);
      if outcome != Panicked && manager != null {
        forall k: Key ensures SlotOf(k) == old(SlotOf(k)) {
          if k.processor in processors && k.symbol == SymbolOf(e) {
            assert !old(Applies(k.processor, e, ok));
          }
        }
      }
    }
  }

  lemma {:induction false} FilterSymbols(events: seq<Event>, symbol: string, start: nat)
    ensures forall e <- Filter(events, symbol, start) :: SymbolOf(e) == symbol && Number(e) >= start
  {
    if events != [] {
      FilterSymbols(events[..|events| - 1], symbol, start);
    }
  }

  lemma OneEventReplayed(e: Event, decodes: Event -> bool)
    requires Number(e) > 0 && decodes(e)
    ensures e in Decoded(Limited(Filter([e], SymbolOf(e), 1), 0), decodes)
  {
    assert [e][..0] == [];
    assert Filter([e], SymbolOf(e), 1) == [e];
    DecodedMembers([e], decodes, e);
  }

  /** The panic happens: one logged event, one processor that accepts it, and a manager. */
  method ReplayPanics(e: Event, name: string) returns (outcome: Outcome)
    requires Number(e) > 0
    ensures outcome == Panicked
  {
    hide DeliveredSeq, Delivered, KeyText, Places, Filter, Decoded, Limited;
    var log := new InMemoryEventLog();
    var appended := log.AppendEvent(Some(e), true);
    var manager := new CheckpointManager(map[]);
    var pipeline := new EventPipeline(log, manager);
    pipeline.processors := [name];
    var decodes: Event -> bool := x => true;
    assert log.events == [e];
    OneEventReplayed(e, decodes);
    assert name in pipeline.processors && pipeline.Applies(name, e, (p, x) => true);
    outcome := pipeline.ProcessEventsFromLog(SymbolOf(e), 1, 0, decodes, (p, x) => true, 0);
  }
}
