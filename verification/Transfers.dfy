/** Transfer records, kept in a database table by the transfer coordinator
    (biz/service/db_transfer_coordinator.go, biz/model/transfer_coordinator.go). */
module Transfers {
  import opened Options
  import opened Decimal

  datatype Status = Pending | InProgress | Completed | Aborted

  datatype Record = Record(partition: string, fromOwner: string, toOwner: string, checkpoint: int, status: Status)

  /** The table with its auto-increment counter. */
  datatype Records = Records(rows: map<nat, Record>, next: nat)

  const NO_RECORDS := Records(map[], 1)

  predicate IdsBelowNext(t: Records) {
    forall id <- t.rows :: id < t.next
  }

  function Inserted(t: Records, r: Record): Records {
    Records(t.rows[t.next := r], t.next + 1)
  }

  function Found(t: Records, transferId: string): Option<nat> {
    var id := Scan(transferId);
    if id.Some? && id.value in t.rows then id else None
  }

  predicate Ready(t: Records, transferId: string) {
    var id := Found(t, transferId);
    id.Some? && t.rows[id.value].status == Completed
  }

  /** The id handed out finds the new record and no other. */
  lemma InsertedIsFound(t: Records, r: Record)
    ensures Found(Inserted(t, r), Dec(t.next)) == Some(t.next) && Inserted(t, r).rows[t.next] == r
  {
    ScanDec(t.next);
  }

  class DBTransferCoordinator {
    var table: Records

    constructor (table: Records)
      ensures this.table == table
    {
      this.table := table;
    }

    method InitiateTransfer(partition: string, fromOwner: string, toOwner: string, checkpoint: int, dbOk: bool)
      returns (id: Option<string>)
      modifies this
      ensures id.Some? <==> dbOk
      ensures dbOk ==> id.value == Dec(old(table).next)
                       && table == Inserted(old(table), Record(partition, fromOwner, toOwner, checkpoint, Pending))
      ensures !dbOk ==> table == old(table)
    {
      if !dbOk {
        return None;
      }
      id := Some(Dec(table.next));
      table := Records(table.rows[table.next := Record(partition, fromOwner, toOwner, checkpoint, Pending)], table.next + 1);
    }

    method GetTransfer(transferId: string, dbOk: bool) returns (r: Option<(nat, Record)>)
      ensures r.Some? <==> dbOk && Found(table, transferId).Some?
      ensures r.Some? ==> r.value.0 == Found(table, transferId).value && r.value.1 == table.rows[r.value.0]
    {
      var id := Scan(transferId);
      if id.None? || !dbOk || id.value !in table.rows {
        return None;
      }
      return Some((id.value, table.rows[id.value]));
    }

    /** Whether the record could be read, and whether it is completed. */
    method IsTargetReady(transferId: string, dbOk: bool) returns (readable: bool, ready: bool)
      ensures readable <==> dbOk && Found(table, transferId).Some?
      ensures ready <==> dbOk && Ready(table, transferId)
    {
      var r := GetTransfer(transferId, dbOk);
      return r.Some?, r.Some? && r.value.1.status == Completed;
    }

    method MarkTransferCompleted(transferId: string, dbOk: bool) returns (ok: bool)
      modifies this
      ensures ok <==> dbOk && Found(old(table), transferId).Some?
      ensures ok ==> Ready(table, transferId) && table.next == old(table).next
                     && (var id := Found(old(table), transferId).value;
                         table.rows == old(table).rows[id := old(table).rows[id].(status := Completed)])
      ensures !ok ==> table == old(table)
    {
      var r := GetTransfer(transferId, dbOk);
      if r.None? {
        return false;
      }
      table := table.(rows := table.rows[r.value.0 := r.value.1.(status := Completed)]);
      return true;
    }
  }
}
