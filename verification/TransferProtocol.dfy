/** The transfer protocol: each call checks the state it expects before driving the state machine
    (biz/model/transfer_protocol.go). */
module TransferProtocols {
  import opened Options
  import opened Transfers
  import opened Ownership

  /** The protocol's calls, `Recover` and the three update calls of the state machine; what other parties
      do to the record table; and the two halves the raw state machine calls fall into, since they release
      the lock between writing the target and attempting the transition. */
  datatype Call =
    | StartTransfer(target: string)
    | ApplyFreezeSignal(source: string)
    | CompleteFlushing(source: string)
    | ApplyTransferSignal(source: string)
    | CommitTransfer(owner: string)
    | RollbackTransfer(reason: string)
    | Recover(actor: string)
    | UpdateLastProcessedSeq(n: int)
    | UpdateCheckpoint(n: int)
    | UpdateKafkaOffset(symbol: string, n: int)
    | InsertRecord(record: Record)
    | SetStatus(id: nat, status: Status)
    | WriteTarget(target: string)
    | RawTransition(to: State, reason: string, actor: string)

  /** The transition a call attempts, and the machine it attempts it on. */
  datatype Attempt = Nothing | Try(site: Site, to: State, reason: string, actor: string)

  function Attempted(y: Site, c: Call): Attempt {
    var s := y.meta.state;
    match c
    case StartTransfer(target) => if s.Owned? then Try(Aimed(y, target), MigrationPending, "StartMigration", "protocol") else Nothing
    case ApplyFreezeSignal(a) => if s.MigrationPending? then Try(y, Frozen, "Freeze", a) else Nothing
    case CompleteFlushing(a) => if s.Frozen? then Try(y, Flushing, "Flush", a) else Nothing
    case ApplyTransferSignal(a) => if s.Flushing? then Try(y, Transferring, "Transfer", a) else Nothing
    case CommitTransfer(a) => if s.Transferring? then Try(y, Standby, "Commit", a) else Nothing
    case RollbackTransfer(reason) => Try(Aimed(y, ""), Failed, "Rollback", reason)
    case Recover(a) => Try(y, Owned, "Recover", a)
    case RawTransition(to, reason, a) => Try(y, to, reason, a)
    case _ => Nothing
  }

  /** The calls that attempt no transition. */
  function Updated(y: Site, c: Call): Site {
    match c
    case UpdateLastProcessedSeq(n) => Counted(y, n)
    case UpdateCheckpoint(n) => Checkpointed(y, n)
    case UpdateKafkaOffset(symbol, n) => Offset(y, symbol, n)
    case InsertRecord(r) => y.(records := Inserted(y.records, r))
    case SetStatus(id, status) =>
      if id !in y.records.rows then y
      else y.(records := y.records.(rows := y.records.rows[id := y.records.rows[id].(status := status)]))
    case WriteTarget(target) => Aimed(y, target)
    case _ => y
  }

  function Applied(y: Site, c: Call, now: int, dbOk: bool): Site {
    match Attempted(y, c)
    case Try(x, to, reason, actor) => Shifted(x, to, reason, actor, now, dbOk)
    case Nothing => Updated(y, c)
  }

  /** Whether a call attempts a transition and it is accepted. */
  predicate Accepts(y: Site, c: Call, now: int, dbOk: bool) {
    var a := Attempted(y, c);
    a.Try? && Allowed(a.site, a.to, now, dbOk)
  }

  /** Why a request is refused: the state the machine was in, or a migration that did not start. */
  datatype Reason = NoReason | NotOwned(state: State) | NotStarted

  /** The response to a transfer request; a refusal carries -1. */
  datatype Response = Response(accepted: bool, reason: Reason, checkpoint: int, requestId: string)

  datatype FlushAck = FlushAck(partition: string, lastProcessed: int, checkpoint: int, kafka: map<string, int>, source: string)

  /** The three checks of `ValidateTransferInvariants`. */
  predicate Sound(m: Metadata) {
    && m.checkpoint <= m.lastProcessed
    && (m.state.Transferring? || m.state.Flushing? ==> |m.kafka| > 0)
    && (InFlight(m.state) ==> m.target != "")
  }

  class TransferProtocol {
    const fsm: OwnershipStateMachine?

    /** A protocol object without a state machine answers every call with an error. */
    constructor (fsm: OwnershipStateMachine?)
      ensures this.fsm == fsm
    {
      this.fsm := fsm;
    }

    ghost function Footprint(): set<object?> {
      if fsm == null then {} else {fsm, fsm.coordinator}
    }

    method StartTransfer(target: string, requestId: string, now: int, dbOk: bool) returns (r: Option<Response>)
      modifies Footprint()
      ensures r.None? <==> fsm == null
      ensures fsm != null ==>
                && fsm.Abs() == Applied(old(fsm.Abs()), Call.StartTransfer(target), now, dbOk)
                && r.value.accepted == Accepts(old(fsm.Abs()), Call.StartTransfer(target), now, dbOk)
                && r.value.checkpoint == (if r.value.accepted then old(fsm.metadata.checkpoint) else -1)
                && r.value.reason == (if r.value.accepted then NoReason
                                      else if old(fsm.metadata.state) != Owned then NotOwned(old(fsm.metadata.state))
                                      else NotStarted)
                && r.value.requestId == requestId
    {
      if fsm == null {
        return None;
      }
      if fsm.metadata.state != Owned {
        return Some(Response(false, NotOwned(fsm.metadata.state), -1, requestId));
      }
      var ok := fsm.StartMigration(target, "protocol", now, dbOk);
      return Some(if ok then Response(true, NoReason, fsm.metadata.checkpoint, requestId)
                  else Response(false, NotStarted, -1, requestId));
    }

    method ApplyFreezeSignal(source: string, now: int, dbOk: bool) returns (ok: bool)
      modifies Footprint()
      ensures fsm == null ==> !ok
      ensures fsm != null ==> fsm.Abs() == Applied(old(fsm.Abs()), Call.ApplyFreezeSignal(source), now, dbOk)
                              && ok == Accepts(old(fsm.Abs()), Call.ApplyFreezeSignal(source), now, dbOk)
    {
      if fsm == null || fsm.metadata.state != MigrationPending {
        return false;
      }
      ok := fsm.Transition(Frozen, "Freeze", source, now, dbOk);
    }

    method CompleteFlushing(source: string, now: int, dbOk: bool) returns (ack: Option<FlushAck>)
      modifies Footprint()
      ensures fsm == null ==> ack.None?
      ensures fsm != null ==> fsm.Abs() == Applied(old(fsm.Abs()), Call.CompleteFlushing(source), now, dbOk)
                              && ack.Some? == Accepts(old(fsm.Abs()), Call.CompleteFlushing(source), now, dbOk)
      ensures ack.Some? ==> ack.value == FlushAck(fsm.metadata.partition, fsm.metadata.lastProcessed, fsm.metadata.checkpoint,
                                                  fsm.metadata.kafka, source)
    {
      if fsm == null || fsm.metadata.state != Frozen {
        return None;
      }
      var ok := fsm.Transition(Flushing, "Flush", source, now, dbOk);
      if !ok {
        return None;
      }
      var m := fsm.metadata;
      return Some(FlushAck(m.partition, m.lastProcessed, m.checkpoint, m.kafka, source));
    }

    method ApplyTransferSignal(source: string, now: int, dbOk: bool) returns (ok: bool)
      modifies Footprint()
      ensures fsm == null ==> !ok
      ensures fsm != null ==> fsm.Abs() == Applied(old(fsm.Abs()), Call.ApplyTransferSignal(source), now, dbOk)
                              && ok == Accepts(old(fsm.Abs()), Call.ApplyTransferSignal(source), now, dbOk)
    {
      if fsm == null || fsm.metadata.state != Flushing {
        return false;
      }
      ok := fsm.Transition(Transferring, "Transfer", source, now, dbOk);
    }

    method CommitTransfer(owner: string, now: int, dbOk: bool) returns (ok: bool)
      modifies Footprint()
      ensures fsm == null ==> !ok
      ensures fsm != null ==> fsm.Abs() == Applied(old(fsm.Abs()), Call.CommitTransfer(owner), now, dbOk)
                              && ok == Accepts(old(fsm.Abs()), Call.CommitTransfer(owner), now, dbOk)
    {
      if fsm == null || fsm.metadata.state != Transferring {
        return false;
      }
      ok := fsm.Transition(Standby, "Commit", owner, now, dbOk);
    }

    method RollbackTransfer(reason: string, now: int, dbOk: bool) returns (ok: bool)
      modifies Footprint()
      ensures fsm == null ==> !ok
      ensures fsm != null ==> fsm.Abs() == Applied(old(fsm.Abs()), Call.RollbackTransfer(reason), now, dbOk)
                              && ok == Accepts(old(fsm.Abs()), Call.RollbackTransfer(reason), now, dbOk)
    {
      if fsm == null {
        return false;
      }
      ok := fsm.Rollback(reason, now, dbOk);
    }

    method ValidateTransferInvariants() returns (ok: bool)
      ensures ok <==> fsm != null && Sound(fsm.metadata)
    {
      if fsm == null {
        return false;
      }
      var m := fsm.metadata;
      if m.checkpoint > m.lastProcessed {
        return false;
      }
      if m.state == Transferring || m.state == Flushing {
        if |m.kafka| == 0 {
          return false;
        }
      }
      if m.state == MigrationPending || m.state == Frozen || m.state == Flushing || m.state == Transferring {
        if m.target == "" {
          return false;
        }
      }
      return true;
    }
  }
}
