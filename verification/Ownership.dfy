/** The partition ownership state machine (biz/model/partition_ownership.go). */
module Ownership {
  import opened Options
  import opened Decimal
  import opened Transfers

  datatype State = Owned | MigrationPending | Frozen | Flushing | Transferring | Standby | Failed

  datatype Change = Change(fromState: State, toState: State, reason: string, actor: string, time: int)

  datatype Metadata = Metadata(
    partition: string,
    current: string,
    previous: string,
    target: string,
    state: State,
    lastProcessed: int,
    checkpoint: int,
    transferId: string,
    kafka: map<string, int>,
    migrationStart: int,
    transitionTime: int,
    version: int,
    history: seq<Change>)

  /** The machine and the table its coordinator writes, if it has one. */
  datatype Site = Site(meta: Metadata, records: Records, coordinated: bool, timeout: int)

  const HISTORY_LIMIT := 100

  predicate InFlight(s: State) {
    s.MigrationPending? || s.Frozen? || s.Flushing? || s.Transferring?
  }

  /** The last n elements, or all of them. */
  function Last<T>(s: seq<T>, n: nat): seq<T> {
    if |s| > n then s[|s| - n..] else s
  }

  /** Guard and action of a transition both succeed; `dbOk` is whether the coordinator's database answers. */
  predicate Allowed(y: Site, to: State, now: int, dbOk: bool) {
    var m := y.meta;
    match to
    case MigrationPending => m.state.Owned? && m.target != "" && m.target != m.current
    case Frozen => m.state.MigrationPending? && now - m.migrationStart <= y.timeout
    case Flushing => m.state.Frozen?
    case Transferring => m.state.Flushing? && m.checkpoint <= m.lastProcessed && (y.coordinated ==> dbOk)
    case Standby =>
      m.state.Transferring? && (y.coordinated ==> m.transferId != "" && dbOk && Ready(y.records, m.transferId))
    case Failed => InFlight(m.state)
    case Owned => m.state.Failed?
  }

  /** What the action of an allowed transition changes. */
  function Acted(y: Site, to: State, now: int): Site {
    var m := y.meta;
    match to
    case MigrationPending => y.(meta := m.(migrationStart := now))
    case Transferring =>
      if !y.coordinated then y
      else
        y.(meta := m.(transferId := Dec(y.records.next)),
           records := Inserted(y.records, Record(m.partition, m.current, m.target, m.checkpoint, Pending)))
    case Standby => y.(meta := m.(previous := m.current, current := m.target, target := ""))
    case Failed => y.(meta := m.(target := ""))
    case Owned => y.(meta := m.(target := ""))
    case Frozen => y
    case Flushing => y
  }

  function Entered(y: Site, c: Change): Site {
    y.(meta := y.meta.(state := c.toState, transitionTime := c.time, version := y.meta.version + 1,
                       history := Last(y.meta.history + [c], HISTORY_LIMIT)))
  }

  /** A whole transition; a refused one changes nothing. */
  function Shifted(y: Site, to: State, reason: string, actor: string, now: int, dbOk: bool): Site {
    if Allowed(y, to, now, dbOk) then Entered(Acted(y, to, now), Change(y.meta.state, to, reason, actor, now)) else y
  }

  function Aimed(y: Site, target: string): Site {
    y.(meta := y.meta.(target := target))
  }

  function Counted(y: Site, n: int): Site {
    if n < y.meta.lastProcessed then y else y.(meta := y.meta.(lastProcessed := n, version := y.meta.version + 1))
  }

  function Checkpointed(y: Site, n: int): Site {
    if n > y.meta.lastProcessed then y else y.(meta := y.meta.(checkpoint := n, version := y.meta.version + 1))
  }

  function Offset(y: Site, symbol: string, n: int): Site {
    if n < 0 then y else y.(meta := y.meta.(kafka := y.meta.kafka[symbol := n], version := y.meta.version + 1))
  }

  class OwnershipStateMachine {
    var metadata: Metadata
    var migrationTimeout: int
    const coordinator: DBTransferCoordinator?

    ghost function Abs(): Site
      reads this, coordinator
    {
      Site(metadata, if coordinator == null then NO_RECORDS else coordinator.table, coordinator != null, migrationTimeout)
    }

    constructor (partition: string, owner: string, coordinator: DBTransferCoordinator?, now: int)
      ensures this.coordinator == coordinator && migrationTimeout == 30
      ensures metadata == Metadata(partition, owner, "", "", Owned, 0, 0, "", map[], 0, now, 1, [])
    {
      metadata := Metadata(partition, owner, "", "", Owned, 0, 0, "", map[], 0, now, 1, []);
      migrationTimeout := 30;
      this.coordinator := coordinator;
    }

    /** The guard registered for the pair of states, evaluated; false when there is none. */
    method Guard(to: State, now: int, dbOk: bool) returns (allowed: bool)
      ensures Allowed(Abs(), to, now, dbOk) ==> allowed
      ensures allowed && !Allowed(Abs(), to, now, dbOk) ==> to.Transferring? && coordinator != null && !dbOk
    {
      var m := metadata;
      match to
      case MigrationPending => return m.state.Owned? && m.target != "" && m.target != m.current;
      case Frozen => return m.state.MigrationPending? && now - m.migrationStart <= migrationTimeout;
      case Flushing => return m.state.Frozen?;
      case Transferring => return m.state.Flushing? && m.checkpoint <= m.lastProcessed;
      case Standby =>
        if !m.state.Transferring? {
          return false;
        }
        if coordinator == null {
          return true;
        }
        if m.transferId == "" {
          return false;
        }
        var readable, ready := coordinator.IsTargetReady(m.transferId, dbOk);
        return readable && ready;
      case Failed => return InFlight(m.state);
      case Owned => return m.state.Failed?;
    }

    /** The action registered for the pair of states. */
    method Act(to: State, now: int, dbOk: bool) returns (ok: bool)
      modifies this`metadata, coordinator
      ensures ok <==> to.Transferring? && coordinator != null ==> dbOk
      ensures Abs() == if ok then Acted(old(Abs()), to, now) else old(Abs())
    {
      ok := true;
      match to {
        case MigrationPending => metadata := metadata.(migrationStart := now);
        case Transferring =>
          if coordinator != null {
            var id := coordinator.InitiateTransfer(metadata.partition, metadata.current, metadata.target, metadata.checkpoint, dbOk);
            if id.None? {
              return false;
            }
            metadata := metadata.(transferId := id.value);
          }
        case Standby =>
          metadata := metadata.(previous := metadata.current);
          metadata := metadata.(current := metadata.target);
          metadata := metadata.(target := "");
        case Failed => metadata := metadata.(target := "");
        case Owned => metadata := metadata.(target := "");
        case Frozen =>
        case Flushing =>
      }
    }

    method Transition(to: State, reason: string, actor: string, now: int, dbOk: bool) returns (ok: bool)
      modifies this`metadata, coordinator
      ensures ok == Allowed(old(Abs()), to, now, dbOk)
      ensures Abs() == Shifted(old(Abs()), to, reason, actor, now, dbOk)
    {
      var fromState := metadata.state;
      ok := Guard(to, now, dbOk);
      if !ok {
        return;
      }
      ok := Act(to, now, dbOk);
      if !ok {
        return;
      }
      var history := metadata.history + [Change(fromState, to, reason, actor, now)];
      if |history| > HISTORY_LIMIT {
        history := history[|history| - HISTORY_LIMIT..];
      }
      metadata := metadata.(state := to, transitionTime := now, version := metadata.version + 1, history := history);
    }

    method StartMigration(target: string, actor: string, now: int, dbOk: bool) returns (ok: bool)
      modifies this`metadata, coordinator
      ensures ok == Allowed(Aimed(old(Abs()), target), MigrationPending, now, dbOk)
      ensures Abs() == Shifted(Aimed(old(Abs()), target), MigrationPending, "StartMigration", actor, now, dbOk)
    {
      metadata := metadata.(target := target);
      ok := Transition(MigrationPending, "StartMigration", actor, now, dbOk);
    }

    method Rollback(actor: string, now: int, dbOk: bool) returns (ok: bool)
      modifies this`metadata, coordinator
      ensures ok == Allowed(Aimed(old(Abs()), ""), Failed, now, dbOk)
      ensures Abs() == Shifted(Aimed(old(Abs()), ""), Failed, "Rollback", actor, now, dbOk)
    {
      metadata := metadata.(target := "");
      ok := Transition(Failed, "Rollback", actor, now, dbOk);
    }

    method UpdateLastProcessedSeq(n: int) returns (ok: bool)
      modifies this`metadata
      ensures ok == (n >= old(metadata.lastProcessed)) && Abs() == Counted(old(Abs()), n)
    {
      if n < metadata.lastProcessed {
        return false;
      }
      metadata := metadata.(lastProcessed := n, version := metadata.version + 1);
      return true;
    }

    method UpdateCheckpoint(n: int) returns (ok: bool)
      modifies this`metadata
      ensures ok == (n <= old(metadata.lastProcessed)) && Abs() == Checkpointed(old(Abs()), n)
    {
      if n > metadata.lastProcessed {
        return false;
      }
      metadata := metadata.(checkpoint := n, version := metadata.version + 1);
      return true;
    }

    method UpdateKafkaOffset(symbol: string, n: int) returns (ok: bool)
      modifies this`metadata
      ensures ok == (n >= 0) && Abs() == Offset(old(Abs()), symbol, n)
    {
      if n < 0 {
        return false;
      }
      metadata := metadata.(kafka := metadata.kafka[symbol := n], version := metadata.version + 1);
      return true;
    }
  }
}
