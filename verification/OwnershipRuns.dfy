/** Runs of the ownership state machine, through the transfer protocol and raw, with other parties changing
    the record table at any time. */
module OwnershipRuns {
  import opened Options
  import opened Decimal
  import opened Transfers
  import opened Ownership
  import opened TransferProtocols

  datatype Move = Move(call: Call, now: int, dbOk: bool)

  /** The machine with an account of its run: every accepted transition, and of the migration under way the
      record opened by its transfer step and the checkpoint the machine had then. */
  datatype Story = Story(site: Site, accepted: seq<Change>, ticket: Option<nat>, resume: int)

  function Step(r: Story, m: Move): Story {
    var after := Applied(r.site, m.call, m.now, m.dbOk);
    if !Accepts(r.site, m.call, m.now, m.dbOk) then r.(site := after)
    else
      var a := Attempted(r.site, m.call);
      Story(after,
            r.accepted + [Change(a.site.meta.state, a.to, a.reason, a.actor, m.now)],
            if a.to.MigrationPending? then None
            else if a.to.Transferring? && r.site.coordinated then Some(r.site.records.next)
            else r.ticket,
            if a.to.Transferring? then r.site.meta.checkpoint else r.resume)
  }

  function Run(r: Story, moves: seq<Move>): Story
    decreases |moves|
  {
    if moves == [] then r else Run(Step(r, moves[0]), moves[1..])
  }

  /** A new machine beside a table in any state. */
  ghost predicate Fresh(r: Story, owner: string) {
    && r.site.meta == Metadata(r.site.meta.partition, owner, "", "", Owned, 0, 0, "", map[], 0, r.site.meta.transitionTime, 1, [])
    && r.accepted == [] && r.ticket == None && IdsBelowNext(r.site.records)
  }

  predicate Raw(c: Call) {
    c.WriteTarget? || c.RawTransition?
  }

  ghost predicate ProtocolDriven(moves: seq<Move>) {
    forall i :: 0 <= i < |moves| ==> !Raw(moves[i].call)
  }

  // ---- what every run keeps, raw calls included ----

  ghost predicate Chained(cs: seq<Change>) {
    && (cs != [] ==> cs[0].fromState == Owned)
    && (forall i :: 0 < i < |cs| ==> cs[i - 1].toState == cs[i].fromState)
    && (forall i :: 0 <= i < |cs| ==> Legal(cs[i].fromState, cs[i].toState))
  }

  /** The arrows of the state diagram. */
  predicate Legal(a: State, b: State) {
    || (a == Owned && b == MigrationPending)
    || (a == MigrationPending && b == Frozen)
    || (a == Frozen && b == Flushing)
    || (a == Flushing && b == Transferring)
    || (a == Transferring && b == Standby)
    || (a in {MigrationPending, Frozen, Flushing, Transferring} && b == Failed)
    || (a == Failed && b == Owned)
  }

  function EndState(cs: seq<Change>): State {
    if cs == [] then Owned else cs[|cs| - 1].toState
  }

  ghost predicate NumbersOk(y: Site) {
    y.meta.checkpoint <= y.meta.lastProcessed && IdsBelowNext(y.records)
  }

  ghost predicate HistoryOk(m: Metadata, accepted: seq<Change>) {
    Chained(accepted) && EndState(accepted) == m.state && m.history == Last(accepted, HISTORY_LIMIT)
  }

  ghost predicate Consistent(r: Story) {
    NumbersOk(r.site) && HistoryOk(r.site.meta, r.accepted)
  }

  lemma LastOfAppended<T>(s: seq<T>, x: T, n: nat)
    requires n > 0
    ensures Last(Last(s, n) + [x], n) == Last(s + [x], n)
  {
  }

  /** Before a transition is attempted at most the target has been written. */
  lemma AttemptFacts(y: Site, c: Call)
    ensures var a := Attempted(y, c);
            a.Try? ==> a.site.records == y.records && a.site.coordinated == y.coordinated
                       && a.site.meta == y.meta.(target := a.site.meta.target)
  {
  }

  lemma ActedFacts(y: Site, to: State, now: int)
    ensures var m, n := y.meta, Acted(y, to, now).meta;
            && n.state == m.state && n.history == m.history && n.partition == m.partition
            && n.checkpoint == m.checkpoint && n.lastProcessed == m.lastProcessed
    ensures Acted(y, to, now).coordinated == y.coordinated
  {
    hide Dec;
  }

  lemma UpdatedFacts(y: Site, c: Call)
    ensures var m, n := y.meta, Updated(y, c).meta;
            && n.state == m.state && n.history == m.history && n.partition == m.partition
            && (m.checkpoint <= m.lastProcessed ==> n.checkpoint <= n.lastProcessed)
    ensures Updated(y, c).coordinated == y.coordinated
  {
  }

  /** The three facts, for the step at hand. */
  lemma StepFacts(r: Story, m: Move)
    ensures var y, z := r.site.meta, Step(r, m).site.meta;
            && z.partition == y.partition && Step(r, m).site.coordinated == r.site.coordinated
            && (y.checkpoint <= y.lastProcessed ==> z.checkpoint <= z.lastProcessed)
  {
    hide Last, Updated, Attempted, Acted, Allowed;
    AttemptFacts(r.site, m.call);
    UpdatedFacts(r.site, m.call);
    var a := Attempted(r.site, m.call);
    if a.Try? {
      ActedFacts(a.site, a.to, m.now);
    }
  }

  lemma StepKeepsIds(r: Story, m: Move)
    requires IdsBelowNext(r.site.records)
    ensures IdsBelowNext(Step(r, m).site.records)
  {
    hide Last, Dec, Scan, Ready;
    RecordsAfter(r, m);
  }

  /** The table stays, gains the record at its counter, or has one status changed. */
  lemma RecordsAfter(r: Story, m: Move)
    ensures var t, u := r.site.records, Step(r, m).site.records;
            || u == t
            || (exists x: Record :: u == Inserted(t, x))
            || (u.next == t.next && u.rows.Keys == t.rows.Keys)
  {
    hide Last, Dec, Scan, Ready;
    if m.call.InsertRecord? {
      assert Step(r, m).site.records == Inserted(r.site.records, m.call.record);
    }
  }

  lemma StepKeepsNumbers(r: Story, m: Move)
    requires NumbersOk(r.site)
    ensures NumbersOk(Step(r, m).site)
  {
    hide Step, IdsBelowNext;
    StepFacts(r, m);
    StepKeepsIds(r, m);
  }

  /** What a step does to the state, the history and the account of accepted transitions. */
  lemma StepRecords(r: Story, m: Move)
    ensures var z := Step(r, m);
            || (z.site.meta.state == r.site.meta.state && z.site.meta.history == r.site.meta.history && z.accepted == r.accepted)
            || exists c: Change ::
                 && c.fromState == r.site.meta.state && Legal(c.fromState, c.toState) && c.toState == z.site.meta.state
                 && z.accepted == r.accepted + [c]
                 && z.site.meta.history == Last(r.site.meta.history + [c], HISTORY_LIMIT)
  {
    AttemptFacts(r.site, m.call);
    UpdatedFacts(r.site, m.call);
    var a := Attempted(r.site, m.call);
    if Accepts(r.site, m.call, m.now, m.dbOk) {
      assert Legal(r.site.meta.state, a.to);
      hide Last, Updated, Attempted, Acted, Allowed;
      ActedFacts(a.site, a.to, m.now);
      var c := Change(a.site.meta.state, a.to, a.reason, a.actor, m.now);
      assert Step(r, m).accepted == r.accepted + [c];
    }
  }

  lemma StepKeepsHistory(r: Story, m: Move)
    requires HistoryOk(r.site.meta, r.accepted)
    ensures HistoryOk(Step(r, m).site.meta, Step(r, m).accepted)
  {
    StepRecords(r, m);
    hide Step, Last;
    var z := Step(r, m);
    if z.accepted != r.accepted {
      var c: Change :|
        && c.fromState == r.site.meta.state && Legal(c.fromState, c.toState) && c.toState == z.site.meta.state
        && z.accepted == r.accepted + [c]
        && z.site.meta.history == Last(r.site.meta.history + [c], HISTORY_LIMIT);
      LastOfAppended(r.accepted, c, HISTORY_LIMIT);
    }
  }

  lemma StepKeepsConsistent(r: Story, m: Move)
    requires Consistent(r)
    ensures Consistent(Step(r, m))
  {
    hide Step, NumbersOk, HistoryOk;
    StepKeepsNumbers(r, m);
    StepKeepsHistory(r, m);
  }

  lemma {:induction false} RunKeepsConsistent(r: Story, moves: seq<Move>)
    requires Consistent(r)
    ensures Consistent(Run(r, moves))
    decreases |moves|
  {
    hide Consistent, Step;
    if moves != [] {
      StepKeepsConsistent(r, moves[0]);
      RunKeepsConsistent(Step(r, moves[0]), moves[1..]);
    }
  }

  /** In every run the checkpoint stays at or below the last processed number, so its guard never refuses:
      a transfer out of Flushing is refused only by the coordinator's database. */
  lemma CheckpointGuardNeverRefuses(r: Story, owner: string, moves: seq<Move>, now: int, dbOk: bool)
    requires Fresh(r, owner)
    ensures var y := Run(r, moves).site;
            && y.meta.checkpoint <= y.meta.lastProcessed
            && (y.meta.state.Flushing? ==> (Allowed(y, Transferring, now, dbOk) <==> (y.coordinated ==> dbOk)))
  {
    RunKeepsConsistent(r, moves);
  }

  /** The history is the last 100 accepted transitions; they chain from Owned to the current state. */
  lemma HistoryIsRecentTransitions(r: Story, owner: string, moves: seq<Move>)
    requires Fresh(r, owner)
    ensures var z := Run(r, moves);
            && z.site.meta.history == Last(z.accepted, 100)
            && Chained(z.accepted) && EndState(z.accepted) == z.site.meta.state
  {
    RunKeepsConsistent(r, moves);
  }

  /** In every run, raw calls included, a commit comes at the end of the whole sequence of steps: started,
      frozen, flushed and transferred, with nothing in between. */
  lemma CommitTakesAllSteps(r: Story, owner: string, moves: seq<Move>, i: nat)
    requires Fresh(r, owner) && i < |Run(r, moves).accepted| && Run(r, moves).accepted[i].toState == Standby
    ensures var cs := Run(r, moves).accepted;
            && i >= 4
            && cs[i].fromState == Transferring
            && cs[i - 1].fromState == Flushing && cs[i - 1].toState == Transferring
            && cs[i - 2].fromState == Frozen && cs[i - 2].toState == Flushing
            && cs[i - 3].fromState == MigrationPending && cs[i - 3].toState == Frozen
            && cs[i - 4].fromState == Owned && cs[i - 4].toState == MigrationPending
  {
    RunKeepsConsistent(r, moves);
    hide Run;
    var cs := Run(r, moves).accepted;
    hide NumbersOk, EndState, Last;
    StepBefore(cs, i);
    StepBefore(cs, i - 1);
    StepBefore(cs, i - 2);
    StepBefore(cs, i - 3);
    StepBefore(cs, i - 4);
  }

  /** On the way to a commit each state is entered from one other. */
  lemma StepBefore(cs: seq<Change>, i: nat)
    requires Chained(cs) && i < |cs|
    ensures cs[i].toState == Standby ==> cs[i].fromState == Transferring
    ensures cs[i].toState == Transferring ==> cs[i].fromState == Flushing
    ensures cs[i].toState == Flushing ==> cs[i].fromState == Frozen
    ensures cs[i].toState == Frozen ==> cs[i].fromState == MigrationPending
    ensures cs[i].toState == MigrationPending ==> cs[i].fromState == Owned
    ensures cs[i].fromState != Owned ==> i > 0 && cs[i - 1].toState == cs[i].fromState
  {
  }

  /** A freeze comes right after the start of its migration and within the timeout of it. */
  ghost predicate FreezesInTime(cs: seq<Change>, timeout: int) {
    forall i :: 0 <= i < |cs| && cs[i].toState == Frozen ==>
                  i > 0 && cs[i - 1].toState == MigrationPending && cs[i].time - cs[i - 1].time <= timeout
  }

  ghost predicate Timely(r: Story) {
    && EndState(r.accepted) == r.site.meta.state
    && (r.site.meta.state.MigrationPending? ==> r.accepted != [] && r.accepted[|r.accepted| - 1].time == r.site.meta.migrationStart)
    && FreezesInTime(r.accepted, r.site.timeout)
  }

  /** An accepted transition is recorded with its time; the start of a migration is its start time, and a
      freeze passed the timeout check. */
  lemma StepTimes(r: Story, m: Move)
    ensures var z := Step(r, m);
            && z.site.timeout == r.site.timeout
            && (z.accepted == r.accepted ==>
                  z.site.meta.state == r.site.meta.state && z.site.meta.migrationStart == r.site.meta.migrationStart)
            && (z.accepted != r.accepted ==>
                  && |z.accepted| == |r.accepted| + 1 && z.accepted[..|r.accepted|] == r.accepted
                  && var c := z.accepted[|r.accepted|];
                     && c.toState == z.site.meta.state
                     && (c.toState.MigrationPending? ==> z.site.meta.migrationStart == c.time)
                     && (c.toState.Frozen? ==> r.site.meta.state.MigrationPending? && c.time - r.site.meta.migrationStart <= r.site.timeout))
  {
    hide Last, Dec, Ready;
  }

  lemma StepKeepsTimely(r: Story, m: Move)
    requires Timely(r)
    ensures Timely(Step(r, m))
  {
    StepTimes(r, m);
    hide Step;
    var z := Step(r, m);
    assert forall i :: 0 <= i < |r.accepted| && |z.accepted| > |r.accepted| ==> z.accepted[i] == z.accepted[..|r.accepted|][i];
  }

  lemma {:induction false} RunKeepsTimely(r: Story, moves: seq<Move>)
    requires Timely(r)
    ensures Timely(Run(r, moves)) && Run(r, moves).site.timeout == r.site.timeout
    decreases |moves|
  {
    hide Timely, Step;
    if moves != [] {
      StepKeepsTimely(r, moves[0]);
      StepTimes(r, moves[0]);
      RunKeepsTimely(Step(r, moves[0]), moves[1..]);
    }
  }

  /** In every run each freeze follows the start of its migration within the timeout. */
  lemma MigrationsFreezeInTime(r: Story, owner: string, moves: seq<Move>)
    requires Fresh(r, owner)
    ensures FreezesInTime(Run(r, moves).accepted, r.site.timeout)
  {
    RunKeepsTimely(r, moves);
  }

  /** Standby is never left and its owner never changes, whatever is called. */
  lemma {:induction false} StandbyIsFinal(r: Story, moves: seq<Move>)
    requires r.site.meta.state == Standby
    ensures Run(r, moves).site.meta.state == Standby && Run(r, moves).site.meta.current == r.site.meta.current
    decreases |moves|
  {
    if moves != [] {
      assert Step(r, moves[0]).site.meta.state == Standby;
      hide Step;
      StandbyIsFinal(Step(r, moves[0]), moves[1..]);
    }
  }

  // ---- protocol-driven runs ----

  ghost predicate Safe(r: Story, owner: string) {
    var m := r.site.meta;
    && m.current != ""
    && (InFlight(m.state) ==> m.target != "" && m.target != m.current)
    && (m.state != Standby ==> m.current == owner)
    && (m.state == Standby ==> m.previous == owner && m.current != owner)
  }

  /** The machine's transfer id names the record opened by this migration, with this migration's owners. */
  ghost predicate OwnRecord(r: Story) {
    var m, t := r.site.meta, r.site.records;
    IdsBelowNext(t) &&
    (m.state.Transferring? && r.site.coordinated ==>
       && r.ticket.Some? && r.ticket.value in t.rows && m.transferId == Dec(r.ticket.value)
       && t.rows[r.ticket.value].partition == m.partition
       && t.rows[r.ticket.value].fromOwner == m.current
       && t.rows[r.ticket.value].toOwner == m.target
       && t.rows[r.ticket.value].checkpoint == r.resume <= m.lastProcessed)
  }

  lemma StepKeepsSafe(r: Story, owner: string, m: Move)
    requires Safe(r, owner) && !Raw(m.call)
    ensures Safe(Step(r, m), owner)
  {
    hide Last, Dec, Ready, Inserted;
  }

  lemma StepKeepsOwnRecord(r: Story, m: Move)
    requires OwnRecord(r) && !Raw(m.call)
    ensures OwnRecord(Step(r, m))
  {
    hide Dec;
  }

  lemma {:induction false} RunKeepsSafe(r: Story, owner: string, moves: seq<Move>)
    requires Safe(r, owner) && OwnRecord(r) && ProtocolDriven(moves)
    ensures Safe(Run(r, moves), owner) && OwnRecord(Run(r, moves))
    decreases |moves|
  {
    hide Safe, OwnRecord, Step;
    if moves != [] {
      StepKeepsSafe(r, owner, moves[0]);
      StepKeepsOwnRecord(r, moves[0]);
      RunKeepsSafe(Step(r, moves[0]), owner, moves[1..]);
    }
  }

  /** In every protocol-driven run from a non-empty owner: an in-flight migration aims at another, non-empty
      node, the owner is never empty, and it is the original one until a commit, which happens at most once
      and is the last transition. */
  lemma ProtocolRunIsSafe(r: Story, owner: string, moves: seq<Move>)
    requires Fresh(r, owner) && owner != "" && ProtocolDriven(moves)
    ensures Safe(Run(r, moves), owner)
    ensures var cs := Run(r, moves).accepted; forall i :: 0 <= i < |cs| && cs[i].toState == Standby ==> i == |cs| - 1
  {
    RunKeepsSafe(r, owner, moves);
    RunKeepsConsistent(r, moves);
    var cs := Run(r, moves).accepted;
    forall i | 0 <= i < |cs| - 1 ensures cs[i].toState != Standby {
      assert cs[i + 1 - 1].toState == cs[i + 1].fromState;
    }
  }

  /** The owner changes at a step exactly when that step is an accepted commit. */
  lemma OwnerChangesOnlyAtCommit(r: Story, owner: string, moves: seq<Move>, m: Move)
    requires Fresh(r, owner) && owner != "" && ProtocolDriven(moves) && !Raw(m.call)
    ensures var z := Run(r, moves);
            Step(z, m).site.meta.current != z.site.meta.current <==>
            m.call.CommitTransfer? && Accepts(z.site, m.call, m.now, m.dbOk)
  {
    RunKeepsSafe(r, owner, moves);
  }

  /** An accepted commit hands the partition to the target of the record opened by this migration's own
      transfer step; that record is completed, for this partition, names the outgoing owner, and carries the
      checkpoint the machine had at that step, which is not beyond what has been processed. */
  lemma CommitFollowsOwnRecord(r: Story, owner: string, moves: seq<Move>, m: Move)
    requires Fresh(r, owner) && owner != "" && ProtocolDriven(moves)
    requires m.call.CommitTransfer? && Accepts(Run(r, moves).site, m.call, m.now, m.dbOk) && r.site.coordinated
    ensures var z := Run(r, moves);
            && z.ticket.Some? && z.ticket.value in z.site.records.rows
            && var record := z.site.records.rows[z.ticket.value];
               && record.status == Completed && record.partition == z.site.meta.partition
               && record.fromOwner == z.site.meta.current
               && record.checkpoint == z.resume <= z.site.meta.lastProcessed
               && Step(z, m).site.meta.current == record.toOwner && Step(z, m).site.meta.previous == record.fromOwner
  {
    RunKeepsSafe(r, owner, moves);
    RunKeepsCoordinated(r, moves);
    var z := Run(r, moves);
    ScanDec(z.ticket.value);
  }

  lemma {:induction false} RunKeepsCoordinated(r: Story, moves: seq<Move>)
    ensures Run(r, moves).site.coordinated == r.site.coordinated && Run(r, moves).site.meta.partition == r.site.meta.partition
    decreases |moves|
  {
    if moves != [] {
      StepFacts(r, moves[0]);
      hide Step;
      RunKeepsCoordinated(Step(r, moves[0]), moves[1..]);
    }
  }

  /** An accepted transfer step opens a pending record of this partition, from its owner to its target, at its
      checkpoint, and remembers both. */
  lemma TransferOpensRecord(r: Story, m: Move)
    requires m.call.ApplyTransferSignal? && Accepts(r.site, m.call, m.now, m.dbOk) && r.site.coordinated
    ensures var z, y := Step(r, m), r.site.meta;
            && z.ticket.Some? && z.ticket.value in z.site.records.rows
            && var record := z.site.records.rows[z.ticket.value];
               && record.status == Pending && record.partition == y.partition
               && record.fromOwner == y.current && record.toOwner == y.target
               && record.checkpoint == y.checkpoint == z.resume && y.checkpoint <= y.lastProcessed
  {
    hide Dec, Last;
  }

  /** The opened record is one that the table did not hold when the migration was accepted. */
  lemma OpenedIsNew(r: Story, m: Move)
    requires IdsBelowNext(r.site.records) && Step(r, m).ticket != r.ticket && Step(r, m).ticket.Some?
    ensures Step(r, m).ticket.value !in r.site.records.rows && Step(r, m).ticket.value in Step(r, m).site.records.rows
  {
  }

  /** Rolling back and recovering in the middle of a migration returns to Owned under the original owner. */
  lemma RollbackThenRecover(r: Story, owner: string, moves: seq<Move>, reason: string, actor: string, a: Move, b: Move)
    requires Fresh(r, owner) && owner != "" && ProtocolDriven(moves) && InFlight(Run(r, moves).site.meta.state)
    requires a.call == RollbackTransfer(reason) && b.call == Recover(actor)
    ensures var failed, z := Step(Run(r, moves), a).site.meta, Step(Step(Run(r, moves), a), b).site.meta;
            && failed.state == Failed && failed.current == owner && failed.target == ""
            && z.state == Owned && z.current == owner && z.target == ""
  {
    RunKeepsSafe(r, owner, moves);
    hide Run, Last, Dec, Ready, Inserted, OwnRecord, ProtocolDriven, Fresh;
    var failed := Step(Run(r, moves), a).site.meta;
    assert failed.state == Failed && failed.current == owner && failed.target == "";
  }

  /** Whichever call ends a migration or a failure, raw ones included, no target is left behind. */
  lemma EndingClearsTarget(r: Story, m: Move)
    requires Step(r, m).site.meta.state != r.site.meta.state && !InFlight(Step(r, m).site.meta.state)
    ensures Step(r, m).site.meta.target == ""
  {
    hide Last, Dec, Ready, Inserted;
  }

  /** In a protocol-driven run the invariant check can only fail for missing Kafka offsets. */
  lemma ValidationExact(r: Story, owner: string, moves: seq<Move>)
    requires Fresh(r, owner) && owner != "" && ProtocolDriven(moves)
    ensures var m := Run(r, moves).site.meta;
            Sound(m) <==> (m.state.Flushing? || m.state.Transferring? ==> m.kafka != map[])
  {
    RunKeepsSafe(r, owner, moves);
    RunKeepsConsistent(r, moves);
    var m := Run(r, moves).site.meta;
    assert |m.kafka| > 0 <==> m.kafka != map[] by {
      if m.kafka != map[] {
        var k :| k in m.kafka;
        assert k in m.kafka.Keys && |m.kafka.Keys| > 0;
      }
    }
  }

  // ---- raw calls ----

  /** A target may be written when no migration is in flight, or when it is a non-empty node other than the
      owner and, once a record is open, the one the record names. */
  predicate MayWrite(y: Site, target: string) {
    var m := y.meta;
    || !InFlight(m.state)
    || (target != "" && target != m.current && (m.state.Transferring? && y.coordinated ==> target == m.target))
  }

  ghost predicate Guaranteed(r: Story, owner: string) {
    Safe(r, owner) && OwnRecord(r)
  }

  /** One write of the target, as `StartMigration` and `Rollback` do it before their transition is accepted. */
  lemma TargetWriteIff(r: Story, owner: string, target: string, now: int, dbOk: bool)
    requires Guaranteed(r, owner)
    ensures Guaranteed(Step(r, Move(WriteTarget(target), now, dbOk)), owner) <==> MayWrite(r.site, target)
  {
  }

  /** A transition tried outside the protocol, from whatever state, is as safe as one tried within. */
  lemma RawTransitionKeepsSafe(r: Story, owner: string, m: Move)
    requires Guaranteed(r, owner) && m.call.RawTransition?
    ensures Guaranteed(Step(r, m), owner)
  {
    hide Dec;
  }

  lemma StepKeepsGuaranteedIff(r: Story, owner: string, m: Move)
    requires Guaranteed(r, owner)
    ensures Guaranteed(Step(r, m), owner) <==> (m.call.WriteTarget? ==> MayWrite(r.site, m.call.target))
  {
    if m.call.WriteTarget? {
      TargetWriteIff(r, owner, m.call.target, m.now, m.dbOk);
      assert m == Move(WriteTarget(m.call.target), m.now, m.dbOk);
    } else if m.call.RawTransition? {
      RawTransitionKeepsSafe(r, owner, m);
    } else {
      hide Safe, OwnRecord, Step;
      StepKeepsSafe(r, owner, m);
      StepKeepsOwnRecord(r, m);
    }
  }

  /** The guarantees hold before, between and after the calls of a run. */
  ghost predicate GuaranteedThroughout(r: Story, owner: string, moves: seq<Move>)
    decreases |moves|
  {
    Guaranteed(r, owner) && (moves != [] ==> GuaranteedThroughout(Step(r, moves[0]), owner, moves[1..]))
  }

  /** Every write of the target in a run is permitted when it is made. */
  ghost predicate WritesPermitted(r: Story, moves: seq<Move>)
    decreases |moves|
  {
    moves != [] ==>
      && (moves[0].call.WriteTarget? ==> MayWrite(r.site, moves[0].call.target))
      && WritesPermitted(Step(r, moves[0]), moves[1..])
  }

  /** For every run of protocol and raw calls in any mixture: the guarantees hold throughout if and only if
      every target was permitted when it was written. */
  lemma {:induction false} RawRunIsSafeIff(r: Story, owner: string, moves: seq<Move>)
    requires Guaranteed(r, owner)
    ensures GuaranteedThroughout(r, owner, moves) <==> WritesPermitted(r, moves)
    decreases |moves|
  {
    hide Guaranteed, Step, MayWrite;
    if moves != [] {
      StepKeepsGuaranteedIff(r, owner, moves[0]);
      if Guaranteed(Step(r, moves[0]), owner) {
        RawRunIsSafeIff(Step(r, moves[0]), owner, moves[1..]);
      }
    }
  }

  /** A raw StartMigration that is refused in Transferring redirects the pending commit: the partition goes
      to a node the completed record does not name. */
  lemma RefusedStartRedirectsCommit(r: Story, owner: string, target: string, actor: string, m: Move)
    requires Safe(r, owner) && OwnRecord(r) && r.site.coordinated && target != r.site.meta.target
    requires m.call == CommitTransfer(actor) && Accepts(r.site, m.call, m.now, m.dbOk)
    ensures var written := Step(r, m.(call := WriteTarget(target)));
            var refused := Step(written, m.(call := RawTransition(MigrationPending, "StartMigration", actor)));
            var done := Step(refused, m);
            && refused == written && Accepts(refused.site, m.call, m.now, m.dbOk)
            && done.site.meta.current == target
            && done.site.meta.current != done.site.records.rows[r.ticket.value].toOwner
  {
  }

  /** A commit landing between the two halves of Rollback leaves the partition without an owner. */
  lemma CommitInsideRollbackLosesOwner(r: Story, actor: string, m: Move)
    requires m.call == CommitTransfer(actor) && Accepts(r.site, m.call, m.now, m.dbOk)
    ensures var done := Step(Step(r, m.(call := WriteTarget(""))), m);
            done.site.meta.state == Standby && done.site.meta.current == ""
  {
  }

  lemma {:induction false} RunOne(r: Story, moves: seq<Move>, m: Move)
    ensures Run(r, moves + [m]) == Step(Run(r, moves), m)
    decreases |moves|
  {
    hide Step;
    if moves == [] {
      assert Run(r, [m]) == Run(Step(r, m), [m][1..]);
    } else {
      assert (moves + [m])[1..] == moves[1..] + [m];
      RunOne(Step(r, moves[0]), moves[1..], m);
    }
  }

  lemma RunFive(r: Story, a: Move, b: Move, c: Move, d: Move, e: Move)
    ensures Run(r, [a, b, c, d, e]) == Step(Step(Step(Step(Step(r, a), b), c), d), e)
  {
    hide Step;
    RunOne(r, [], a);
    RunOne(r, [a], b);
    RunOne(r, [a, b], c);
    RunOne(r, [a, b, c], d);
    RunOne(r, [a, b, c, d], e);
    assert [] + [a] == [a] && [a] + [b] == [a, b] && [a, b] + [c] == [a, b, c];
    assert [a, b, c] + [d] == [a, b, c, d] && [a, b, c, d] + [e] == [a, b, c, d, e];
  }

  function Now(c: Call): Move {
    Move(c, 0, true)
  }

  lemma StartToFlushing(r: Story)
    requires Fresh(r, "a") && r.site.timeout >= 0
    ensures var z := Step(Step(Step(r, Now(StartTransfer("b"))), Now(ApplyFreezeSignal("a"))), Now(CompleteFlushing("a")));
            && z.site.meta.state == Flushing && z.site.meta.target == "b" && z.site.meta.checkpoint <= z.site.meta.lastProcessed
            && z.site.records == r.site.records && z.site.coordinated == r.site.coordinated
  {
    var z1 := Step(r, Now(StartTransfer("b")));
    assert z1.site.meta.state == MigrationPending && z1.site.meta.migrationStart == 0;
    var z2 := Step(z1, Now(ApplyFreezeSignal("a")));
    assert z2.site.meta.state == Frozen;
  }

  lemma FlushingToReady(z: Story)
    requires z.site.meta.state == Flushing && z.site.coordinated && z.site.meta.checkpoint <= z.site.meta.lastProcessed
    ensures var y := Step(Step(z, Now(ApplyTransferSignal("a"))), Now(SetStatus(z.site.records.next, Completed)));
            Accepts(y.site, CommitTransfer("b"), 0, true) && y.site.meta.target == z.site.meta.target && y.site.coordinated
  {
    hide Scan;
    ScanDec(z.site.records.next);
    var x := Step(z, Now(ApplyTransferSignal("a")));
    assert x.site.meta.state == Transferring && x.site.meta.transferId == Dec(z.site.records.next);
  }

  /** A protocol-driven run up to a completed record, ready to commit from "a" to "b". */
  lemma ReadyRun(r: Story) returns (moves: seq<Move>)
    requires Fresh(r, "a") && r.site.coordinated && r.site.timeout >= 0
    ensures ProtocolDriven(moves)
    ensures var z := Run(r, moves);
            Accepts(z.site, CommitTransfer("b"), 0, true) && z.site.meta.target == "b" && z.site.coordinated
  {
    StartToFlushing(r);
    var a, b, c := Now(StartTransfer("b")), Now(ApplyFreezeSignal("a")), Now(CompleteFlushing("a"));
    var d, e := Now(ApplyTransferSignal("a")), Now(SetStatus(r.site.records.next, Completed));
    FlushingToReady(Step(Step(Step(r, a), b), c));
    hide Step, Accepts, Run;
    RunFive(r, a, b, c, d, e);
    moves := [a, b, c, d, e];
  }

  /** Both happen: raw calls take a new machine, by way of a protocol-driven run, to an owner "c" that the
      completed record does not name, and to no owner at all. */
  lemma RawCallsBreakSafety(r: Story) returns (moves: seq<Move>)
    requires Fresh(r, "a") && r.site.coordinated && r.site.timeout >= 0
    ensures ProtocolDriven(moves)
    ensures var z, commit := Run(r, moves), Now(CommitTransfer("b"));
            && z.ticket.Some? && z.ticket.value in z.site.records.rows && z.site.records.rows[z.ticket.value].toOwner == "b"
            && Step(Step(z, Now(WriteTarget("c"))), commit).site.meta.current == "c"
            && Step(Step(z, Now(WriteTarget(""))), commit).site.meta.current == ""
  {
    moves := ReadyRun(r);
    RunKeepsSafe(r, "a", moves);
    var z := Run(r, moves);
    hide Run;
    RefusedStartRedirectsCommit(z, "a", "c", "b", Now(CommitTransfer("b")));
    CommitInsideRollbackLosesOwner(z, "b", Now(CommitTransfer("b")));
  }
}
