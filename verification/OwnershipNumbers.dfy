/** The counters of the ownership state machine over whole runs, against plain readings of the calls made
    (biz/model/partition_ownership.go). */
module OwnershipNumbers {
  import opened Options
  import opened Decimal
  import opened Transfers
  import opened Ownership
  import opened TransferProtocols
  import opened OwnershipRuns

  /** The highest number ever reported as processed, or 0. */
  function HighestReported(moves: seq<Move>): int {
    if moves == [] then 0
    else
      var before, c := HighestReported(moves[..|moves| - 1]), moves[|moves| - 1].call;
      if c.UpdateLastProcessedSeq? && c.n > before then c.n else before
  }

  /** The latest checkpoint reported that was not beyond what had been processed, or 0. */
  function LatestCheckpoint(moves: seq<Move>): int {
    if moves == [] then 0
    else
      var before, c := moves[..|moves| - 1], moves[|moves| - 1].call;
      if c.UpdateCheckpoint? && c.n <= HighestReported(before) then c.n else LatestCheckpoint(before)
  }

  /** The latest non-negative offset reported for a symbol. */
  function LatestOffset(moves: seq<Move>, symbol: string): Option<int> {
    if moves == [] then None
    else
      var c := moves[|moves| - 1].call;
      if c.UpdateKafkaOffset? && c.symbol == symbol && c.n >= 0 then Some(c.n)
      else LatestOffset(moves[..|moves| - 1], symbol)
  }

  /** How many update calls took effect. */
  function EffectiveUpdates(moves: seq<Move>): nat {
    if moves == [] then 0
    else
      var before, c := moves[..|moves| - 1], moves[|moves| - 1].call;
      EffectiveUpdates(before)
      + if || (c.UpdateLastProcessedSeq? && c.n >= HighestReported(before))
           || (c.UpdateCheckpoint? && c.n <= HighestReported(before))
           || (c.UpdateKafkaOffset? && c.n >= 0) then 1 else 0
  }

  /** What a transition, accepted or not, does to the counters. */
  lemma ShiftCounters(y: Site, to: State, reason: string, actor: string, now: int, dbOk: bool)
    ensures var m, n := y.meta, Shifted(y, to, reason, actor, now, dbOk).meta;
            && n.lastProcessed == m.lastProcessed && n.checkpoint == m.checkpoint && n.kafka == m.kafka
            && n.version == m.version + (if Allowed(y, to, now, dbOk) then 1 else 0)
            && n.transitionTime == (if Allowed(y, to, now, dbOk) then now else m.transitionTime)
  {
    hide Last, Dec, Ready;
  }

  ghost predicate CountersAre(r: Story, moves: seq<Move>) {
    var m := r.site.meta;
    && m.lastProcessed == HighestReported(moves)
    && m.checkpoint == LatestCheckpoint(moves)
    && m.version == 1 + |r.accepted| + EffectiveUpdates(moves)
    && (r.accepted != [] ==> m.transitionTime == r.accepted[|r.accepted| - 1].time)
    && forall s: string :: (s in m.kafka <==> LatestOffset(moves, s).Some?) && (s in m.kafka ==> LatestOffset(moves, s) == Some(m.kafka[s]))
  }

  /** The last call of a run, in the plain readings. */
  lemma ReadOne(moves: seq<Move>, m: Move)
    ensures (moves + [m])[..|moves|] == moves && (moves + [m])[|moves|] == m
  {
  }

  lemma TransitionKeepsCounters(r: Story, moves: seq<Move>, m: Move)
    requires CountersAre(r, moves) && Attempted(r.site, m.call).Try?
    ensures CountersAre(Step(r, m), moves + [m])
  {
    var a := Attempted(r.site, m.call);
    AttemptFacts(r.site, m.call);
    ReadOne(moves, m);
    ShiftCounters(a.site, a.to, a.reason, a.actor, m.now, m.dbOk);
    hide Shifted, Allowed, Attempted;
    assert forall s: string :: LatestOffset(moves + [m], s) == LatestOffset(moves, s);
  }

  lemma UpdateKeepsCounters(r: Story, moves: seq<Move>, m: Move)
    requires CountersAre(r, moves) && Attempted(r.site, m.call).Nothing?
    ensures CountersAre(Step(r, m), moves + [m])
  {
    ReadOne(moves, m);
    var c := m.call;
    assert forall s: string :: LatestOffset(moves + [m], s) ==
             if c.UpdateKafkaOffset? && c.symbol == s && c.n >= 0 then Some(c.n) else LatestOffset(moves, s);
    hide LatestOffset, Inserted;
  }

  lemma {:induction false} RunCounters(r: Story, owner: string, moves: seq<Move>)
    requires Fresh(r, owner)
    ensures CountersAre(Run(r, moves), moves)
  {
    if moves != [] {
      var before, m := moves[..|moves| - 1], moves[|moves| - 1];
      assert moves == before + [m];
      RunOne(r, before, m);
      RunCounters(r, owner, before);
      hide CountersAre, Step, Run, Attempted;
      if Attempted(Run(r, before).site, m.call).Try? {
        TransitionKeepsCounters(Run(r, before), before, m);
      } else {
        UpdateKeepsCounters(Run(r, before), before, m);
      }
    }
  }

  /** Over every run: the last processed number is the highest ever reported, the checkpoint the latest that was
      not ahead of it, each symbol's offset the latest non-negative one, and the version counts exactly the
      accepted transitions and effective updates. */
  lemma CountersTellTheCalls(r: Story, owner: string, moves: seq<Move>, symbol: string)
    requires Fresh(r, owner)
    ensures var z := Run(r, moves);
            var m := z.site.meta;
            && m.lastProcessed == HighestReported(moves) && m.checkpoint == LatestCheckpoint(moves)
            && (if symbol in m.kafka then LatestOffset(moves, symbol) == Some(m.kafka[symbol]) else LatestOffset(moves, symbol) == None)
            && m.version == 1 + |z.accepted| + EffectiveUpdates(moves)
  {
    RunCounters(r, owner, moves);
  }

  lemma {:induction false} HighestIsHighest(moves: seq<Move>, i: nat)
    requires i < |moves| && moves[i].call.UpdateLastProcessedSeq?
    ensures moves[i].call.n <= HighestReported(moves)
  {
    var n := |moves| - 1;
    if i < n {
      HighestIsHighest(moves[..n], i);
    }
  }

  /** What an accepted protocol call writes into the history. */
  lemma HistoryNamesCall(y: Site, c: Call, now: int, dbOk: bool)
    requires Accepts(y, c, now, dbOk) && !Raw(c)
    ensures var h := Applied(y, c, now, dbOk).meta.history;
            h != [] &&
            var last := h[|h| - 1];
            && last.time == now && last.fromState == y.meta.state
            && (c.StartTransfer? ==> last.toState == MigrationPending && last.reason == "StartMigration" && last.actor == "protocol")
            && (c.ApplyFreezeSignal? ==> last.toState == Frozen && last.reason == "Freeze" && last.actor == c.source)
            && (c.CompleteFlushing? ==> last.toState == Flushing && last.reason == "Flush" && last.actor == c.source)
            && (c.ApplyTransferSignal? ==> last.toState == Transferring && last.reason == "Transfer" && last.actor == c.source)
            && (c.CommitTransfer? ==> last.toState == Standby && last.reason == "Commit" && last.actor == c.owner)
            && (c.RollbackTransfer? ==> last.toState == Failed && last.reason == "Rollback" && last.actor == c.reason)
            && (c.Recover? ==> last.toState == Owned && last.reason == "Recover" && last.actor == c.actor)
  {
    var a := Attempted(y, c);
    AttemptFacts(y, c);
    ActedFacts(a.site, a.to, now);
    LastKeepsEnd(a.site.meta.history, Change(y.meta.state, a.to, a.reason, a.actor, now));
    hide Acted, Allowed, Last;
  }

  lemma LastKeepsEnd(h: seq<Change>, c: Change)
    ensures var l := Last(h + [c], HISTORY_LIMIT); l != [] && l[|l| - 1] == c
  {
  }
}
