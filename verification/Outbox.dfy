/** Publishing outbox entries in batches (biz/service/outbox_dispatcher.go, biz/dal/pg/outbox_repo.go). */
module Outboxes {
  /** A row; whether its payload is JSON is all that matters about the payload. */
  datatype Entry = Entry(id: string, kind: string, wellFormed: bool, published: bool, publishedAt: int, retries: nat, lastError: string)

  /** What the outside world does during one tick: whether the fetch and the final mark succeed, and, per
      event id, whether Kafka takes the message, and the text of an error and whether it can be recorded. */
  datatype Weather = Weather(fetched: bool, sends: string -> bool, recorded: string -> bool, message: string -> string, marked: bool, now: int)

  /** The table in creation order, and the ids of the messages Kafka has taken. */
  datatype Outbox = Outbox(rows: seq<Entry>, sent: set<string>)

  predicate Known(kind: string) {
    kind == "TradeExecuted" || kind == "PositionUpdated"
  }

  predicate Sends(e: Entry, w: Weather) {
    e.wellFormed && Known(e.kind) && w.sends(e.id)
  }

  /** No error from publishing: entries of other types pass without being sent. */
  predicate Publishes(e: Entry, w: Weather) {
    e.wellFormed && (Known(e.kind) ==> w.sends(e.id))
  }

  function Waiting(rows: seq<Entry>): nat {
    if rows == [] then 0 else Waiting(rows[..|rows| - 1]) + if rows[|rows| - 1].published then 0 else 1
  }

  /** Row i is among the first unpublished ones; a negative batch size is no limit. */
  predicate InBatch(rows: seq<Entry>, i: nat, batch: int)
    requires i < |rows|
  {
    !rows[i].published && (batch < 0 || Waiting(rows[..i]) < batch)
  }

  /** The rows a batch consists of. */
  function Batch(rows: seq<Entry>, batch: int): seq<Entry> {
    if rows == [] then []
    else
      var n := |rows| - 1;
      Batch(rows[..n], batch) + if InBatch(rows, n, batch) then [rows[n]] else []
  }

  /** Where the rows of the batch are. */
  function BatchPlaces(rows: seq<Entry>, batch: int): seq<nat> {
    if rows == [] then []
    else
      var n := |rows| - 1;
      BatchPlaces(rows[..n], batch) + if InBatch(rows, n, batch) then [n] else []
  }

  lemma {:induction false} BatchLength(rows: seq<Entry>, batch: int)
    ensures |Batch(rows, batch)| == if batch < 0 || Waiting(rows) < batch then Waiting(rows) else batch
  {
    if rows != [] {
      BatchLength(rows[..|rows| - 1], batch);
    }
  }

  function AfterAttempt(e: Entry, w: Weather): Entry {
    if !Publishes(e, w) then (if w.recorded(e.id) then e.(retries := e.retries + 1, lastError := w.message(e.id)) else e)
    else if w.marked then e.(published := true, publishedAt := w.now)
    else e
  }

  function TickedRows(rows: seq<Entry>, w: Weather, batch: int): seq<Entry> {
    seq(|rows|, i requires 0 <= i < |rows| => if InBatch(rows, i, batch) then AfterAttempt(rows[i], w) else rows[i])
  }

  function SentIn(rows: seq<Entry>, w: Weather, batch: int): set<string> {
    set i | 0 <= i < |rows| && InBatch(rows, i, batch) && Sends(rows[i], w) :: rows[i].id
  }

  function Ticked(o: Outbox, w: Weather, batch: int): Outbox {
    if !w.fetched then o else Outbox(TickedRows(o.rows, w, batch), o.sent + SentIn(o.rows, w, batch))
  }

  /** Published rows older than the cutoff are deleted. */
  function Cleaned(rows: seq<Entry>, cutoff: int): seq<Entry> {
    if rows == [] then []
    else
      var e := rows[|rows| - 1];
      Cleaned(rows[..|rows| - 1], cutoff) + if e.published && e.publishedAt < cutoff then [] else [e]
  }

  predicate HasId(rows: seq<Entry>, id: string) {
    exists i :: 0 <= i < |rows| && rows[i].id == id
  }

  function Written(rows: seq<Entry>, id: string, kind: string, wellFormed: bool): seq<Entry> {
    if HasId(rows, id) then rows else rows + [Entry(id, kind, wellFormed, false, 0, 0, "")]
  }

  /** The event id is unique in the table. */
  ghost predicate UniqueIds(rows: seq<Entry>) {
    forall i, j :: 0 <= i < j < |rows| ==> rows[i].id != rows[j].id
  }

  ghost predicate Ascending(at: seq<nat>) {
    forall i, j :: 0 <= i < j < |at| ==> at[i] < at[j]
  }

  /** The two updates of the repository: by event id, over the whole table. */
  function MarkedIds(rows: seq<Entry>, ids: seq<string>, now: int): seq<Entry> {
    seq(|rows|, i requires 0 <= i < |rows| => if rows[i].id in ids then rows[i].(published := true, publishedAt := now) else rows[i])
  }

  function ErrorRecorded(rows: seq<Entry>, id: string, text: string): seq<Entry> {
    seq(|rows|, i requires 0 <= i < |rows| =>
          if rows[i].id == id then rows[i].(retries := rows[i].retries + 1, lastError := text) else rows[i])
  }

  class OutboxRepo {
    var rows: seq<Entry>

    constructor (rows: seq<Entry>)
      ensures this.rows == rows
    {
      this.rows := rows;
    }

    /** The first `limit` unpublished rows. */
    method GetUnpublished(limit: int) returns (entries: seq<Entry>)
      ensures entries == Batch(rows, limit)
    {
      entries := [];
      var i := 0;
      while i < |rows|
        invariant 0 <= i <= |rows| && entries == Batch(rows[..i], limit)
      {
        assert rows[..i + 1][..i] == rows[..i];
        BatchLength(rows[..i], limit);
        if !rows[i].published && (limit < 0 || |entries| < limit) {
          entries := entries + [rows[i]];
        }
        i := i + 1;
      }
      assert rows[..i] == rows;
    }

    method MarkPublishedBatch(ids: seq<string>, now: int, dbOk: bool) returns (ok: bool)
      modifies this
      ensures ok == dbOk && rows == if dbOk then MarkedIds(old(rows), ids, now) else old(rows)
    {
      ok := dbOk;
      if !ok {
        return;
      }
      var i := 0;
      while i < |rows|
        invariant 0 <= i <= |rows| == |old(rows)|
        invariant forall j :: 0 <= j < i ==> rows[j] == MarkedIds(old(rows), ids, now)[j]
        invariant forall j :: i <= j < |rows| ==> rows[j] == old(rows)[j]
      {
        if rows[i].id in ids {
          rows := rows[i := rows[i].(published := true, publishedAt := now)];
        }
        i := i + 1;
      }
    }

    method RecordPublishError(id: string, text: string, dbOk: bool)
      modifies this
      ensures rows == if dbOk then ErrorRecorded(old(rows), id, text) else old(rows)
    {
      if !dbOk {
        return;
      }
      var i := 0;
      while i < |rows|
        invariant 0 <= i <= |rows| == |old(rows)|
        invariant forall j :: 0 <= j < i ==> rows[j] == ErrorRecorded(old(rows), id, text)[j]
        invariant forall j :: i <= j < |rows| ==> rows[j] == old(rows)[j]
      {
        if rows[i].id == id {
          rows := rows[i := rows[i].(retries := rows[i].retries + 1, lastError := text)];
        }
        i := i + 1;
      }
    }

    method CleanPublished(cutoff: int, dbOk: bool) returns (deleted: nat, ok: bool)
      modifies this
      ensures ok == dbOk && rows == (if dbOk then Cleaned(old(rows), cutoff) else old(rows)) && deleted == |old(rows)| - |rows|
    {
      var kept: seq<Entry> := [];
      deleted, ok := 0, dbOk;
      if !ok {
        return;
      }
      var i := 0;
      while i < |rows|
        invariant 0 <= i <= |rows| && rows == old(rows)
        invariant kept == Cleaned(rows[..i], cutoff) && deleted == i - |kept|
      {
        assert rows[..i + 1][..i] == rows[..i];
        if rows[i].published && rows[i].publishedAt < cutoff {
          deleted := deleted + 1;
        } else {
          kept := kept + [rows[i]];
        }
        i := i + 1;
      }
      assert rows[..i] == rows;
      rows := kept;
    }
  }

  class OutboxDispatcher {
    const repo: OutboxRepo
    const batchSize: int
    var sent: set<string>

    ghost function Abs(): Outbox
      reads this, repo
    {
      Outbox(repo.rows, sent)
    }

    constructor (repo: OutboxRepo, batchSize: int)
      ensures this.repo == repo && this.batchSize == batchSize && sent == {}
    {
      this.repo, this.batchSize, sent := repo, batchSize, {};
    }

    method PublishEntry(e: Entry, w: Weather) returns (ok: bool)
      modifies this`sent
      ensures ok == Publishes(e, w)
      ensures sent == old(sent) + if Sends(e, w) then {e.id} else {}
    {
      if !e.wellFormed {
        return false;
      }
      if e.kind == "TradeExecuted" || e.kind == "PositionUpdated" {
        ok := w.sends(e.id);
        if ok {
          sent := sent + {e.id};
        }
        return;
      }
      return true;
    }

    /** The loop over the fetched entries. */
    method PublishAll(entries: seq<Entry>, w: Weather) returns (successful: seq<string>)
      modifies this`sent, repo
      ensures repo.rows == Tried(old(repo.rows), entries, w)
      ensures successful == Successes(entries, w) && sent == old(sent) + SentOf(entries, w)
    {
      hide Sends, ErrorRecorded;
      successful := [];
      var k := 0;
      while k < |entries|
        invariant 0 <= k <= |entries| && repo.rows == Tried(old(repo.rows), entries[..k], w)
        invariant successful == Successes(entries[..k], w) && sent == old(sent) + SentOf(entries[..k], w)
      {
        assert entries[..k + 1][..k] == entries[..k];
        var e := entries[k];
        var ok := PublishEntry(e, w);
        if !ok {
          repo.RecordPublishError(e.id, w.message(e.id), w.recorded(e.id));
        } else {
          successful := successful + [e.id];
        }
        k := k + 1;
      }
      assert entries[..k] == entries;
    }

    method DispatchBatch(w: Weather)
      requires UniqueIds(repo.rows)
      modifies this`sent, repo
      ensures Abs() == Ticked(old(Abs()), w, batchSize)
    {
      if !w.fetched {
        return;
      }
      var entries := repo.GetUnpublished(batchSize);
      ghost var rows := repo.rows;
      var successful := PublishAll(entries, w);
      if |successful| > 0 {
        var marked := repo.MarkPublishedBatch(successful, w.now, w.marked);
      }
      BatchIsRead(rows, batchSize);
      forall i | 0 <= i < |rows| ensures i in BatchPlaces(rows, batchSize) <==> InBatch(rows, i, batchSize) {
        BatchPlacesExact(rows, batchSize, i);
      }
      BatchEffect(rows, entries, BatchPlaces(rows, batchSize), w, batchSize);
    }
  }

  // ---- the batch, entry by entry and row by row ----

  function SentOf(entries: seq<Entry>, w: Weather): set<string> {
    if entries == [] then {}
    else SentOf(entries[..|entries| - 1], w) + if Sends(entries[|entries| - 1], w) then {entries[|entries| - 1].id} else {}
  }

  function Successes(entries: seq<Entry>, w: Weather): seq<string> {
    if entries == [] then []
    else Successes(entries[..|entries| - 1], w) + if Publishes(entries[|entries| - 1], w) then [entries[|entries| - 1].id] else []
  }

  /** The table after the loop, before the mark. */
  function Tried(rows: seq<Entry>, entries: seq<Entry>, w: Weather): seq<Entry> {
    if entries == [] then rows
    else
      var before, e := Tried(rows, entries[..|entries| - 1], w), entries[|entries| - 1];
      if !Publishes(e, w) && w.recorded(e.id) then ErrorRecorded(before, e.id, w.message(e.id)) else before
  }

  lemma {:induction false} SuccessMembers(entries: seq<Entry>, w: Weather, id: string)
    ensures id in Successes(entries, w) <==> exists k :: 0 <= k < |entries| && Publishes(entries[k], w) && entries[k].id == id
    ensures id in SentOf(entries, w) <==> exists k :: 0 <= k < |entries| && Sends(entries[k], w) && entries[k].id == id
  {
    if entries != [] {
      SuccessMembers(entries[..|entries| - 1], w, id);
    }
  }

  /** Where the batch is, given the rows it was read from. */
  ghost predicate ReadAt(rows: seq<Entry>, entries: seq<Entry>, at: seq<nat>) {
    && |at| == |entries| && Ascending(at)
    && forall k :: 0 <= k < |at| ==> at[k] < |rows| && entries[k] == rows[at[k]]
  }

  /** Reading one row more, which is in the batch or not. */
  lemma ReadOneMore(rows: seq<Entry>, e: Entry, entries: seq<Entry>, at: seq<nat>)
    requires ReadAt(rows, entries, at)
    ensures ReadAt(rows + [e], entries, at) && ReadAt(rows + [e], entries + [e], at + [|rows|])
  {
  }

  lemma {:induction false} BatchIsRead(rows: seq<Entry>, batch: int)
    ensures ReadAt(rows, Batch(rows, batch), BatchPlaces(rows, batch))
  {
    hide InBatch;
    if rows != [] {
      var n := |rows| - 1;
      BatchIsRead(rows[..n], batch);
      assert rows == rows[..n] + [rows[n]];
      ReadOneMore(rows[..n], rows[n], Batch(rows[..n], batch), BatchPlaces(rows[..n], batch));
      hide ReadAt;
      assert Batch(rows[..n], batch) + [] == Batch(rows[..n], batch);
      assert BatchPlaces(rows[..n], batch) + [] == BatchPlaces(rows[..n], batch);
    }
  }

  lemma {:induction false} BatchPlacesExact(rows: seq<Entry>, batch: int, i: nat)
    requires i < |rows|
    ensures i in BatchPlaces(rows, batch) <==> InBatch(rows, i, batch)
  {
    hide Waiting;
    var n := |rows| - 1;
    BatchPlacesBelow(rows[..n], batch);
    if i < n {
      BatchPlacesExact(rows[..n], batch, i);
      assert rows[..n][..i] == rows[..i];
    }
  }

  lemma {:induction false} BatchPlacesBelow(rows: seq<Entry>, batch: int)
    ensures forall i <- BatchPlaces(rows, batch) :: i < |rows|
  {
    if rows != [] {
      BatchPlacesBelow(rows[..|rows| - 1], batch);
    }
  }

  /** The batch read before its last entry. */
  lemma ReadBefore(rows: seq<Entry>, entries: seq<Entry>, at: seq<nat>, i: nat)
    requires UniqueIds(rows) && ReadAt(rows, entries, at) && entries != [] && i < |rows|
    ensures var n := |entries| - 1;
            && ReadAt(rows, entries[..n], at[..n])
            && (i in at <==> i in at[..n] || i == at[n]) && at[n] !in at[..n]
            && at[n] < |rows| && entries[n] == rows[at[n]] && (rows[i].id == entries[n].id <==> i == at[n])
  {
    var n := |entries| - 1;
    assert at == at[..n] + [at[n]];
  }

  lemma {:induction false} TriedAt(rows: seq<Entry>, entries: seq<Entry>, at: seq<nat>, w: Weather, i: nat)
    requires UniqueIds(rows) && ReadAt(rows, entries, at) && i < |rows|
    ensures |Tried(rows, entries, w)| == |rows|
    ensures Tried(rows, entries, w)[i] ==
            if i in at && !Publishes(rows[i], w) && w.recorded(rows[i].id)
            then rows[i].(retries := rows[i].retries + 1, lastError := w.message(rows[i].id)) else rows[i]
  {
    hide UniqueIds, Publishes;
    if entries == [] {
      assert at == [];
    } else {
      var n := |entries| - 1;
      ReadBefore(rows, entries, at, i);
      hide ReadAt;
      TriedAt(rows, entries[..n], at[..n], w, i);
    }
  }

  lemma RowSucceeds(rows: seq<Entry>, entries: seq<Entry>, at: seq<nat>, w: Weather, i: nat)
    requires UniqueIds(rows) && ReadAt(rows, entries, at) && i < |rows|
    ensures rows[i].id in Successes(entries, w) <==> i in at && Publishes(rows[i], w)
    ensures rows[i].id in SentOf(entries, w) <==> i in at && Sends(rows[i], w)
  {
    SuccessMembers(entries, w, rows[i].id);
    hide Successes, SentOf, Publishes, Sends;
    assert forall k :: 0 <= k < |entries| && entries[k].id == rows[i].id ==> at[k] == i;
    if i in at {
      var k :| 0 <= k < |at| && at[k] == i;
      assert entries[k] == rows[i];
    }
  }

  lemma SentEffect(rows: seq<Entry>, entries: seq<Entry>, at: seq<nat>, w: Weather, batch: int)
    requires UniqueIds(rows) && ReadAt(rows, entries, at)
    requires forall i :: 0 <= i < |rows| ==> (i in at <==> InBatch(rows, i, batch))
    ensures SentOf(entries, w) == SentIn(rows, w, batch)
  {
    hide SentOf, Sends, UniqueIds, InBatch;
    forall id: string ensures id in SentOf(entries, w) <==> id in SentIn(rows, w, batch) {
      SuccessMembers(entries, w, id);
      if id in SentOf(entries, w) {
        var k :| 0 <= k < |entries| && Sends(entries[k], w) && entries[k].id == id;
        assert at[k] in at && InBatch(rows, at[k], batch);
      }
      if id in SentIn(rows, w, batch) {
        var i :| 0 <= i < |rows| && InBatch(rows, i, batch) && Sends(rows[i], w) && rows[i].id == id;
        RowSucceeds(rows, entries, at, w, i);
      }
    }
  }

  lemma BatchEffect(rows: seq<Entry>, entries: seq<Entry>, at: seq<nat>, w: Weather, batch: int)
    requires UniqueIds(rows) && ReadAt(rows, entries, at)
    requires forall i :: 0 <= i < |rows| ==> (i in at <==> InBatch(rows, i, batch))
    ensures SentOf(entries, w) == SentIn(rows, w, batch)
    ensures var tried, ids := Tried(rows, entries, w), Successes(entries, w);
            TickedRows(rows, w, batch) == if w.marked && |ids| > 0 then MarkedIds(tried, ids, w.now) else tried
  {
    SentEffect(rows, entries, at, w, batch);
    hide Tried, Successes, SentOf, SentIn, UniqueIds, ReadAt, InBatch, Publishes;
    var tried, ids := Tried(rows, entries, w), Successes(entries, w);
    TriedLength(rows, entries, w);
    forall i | 0 <= i < |rows|
      ensures TickedRows(rows, w, batch)[i] == (if w.marked && |ids| > 0 then MarkedIds(tried, ids, w.now) else tried)[i]
    {
      TriedAt(rows, entries, at, w, i);
      RowSucceeds(rows, entries, at, w, i);
    }
  }

  lemma {:induction false} TriedLength(rows: seq<Entry>, entries: seq<Entry>, w: Weather)
    ensures |Tried(rows, entries, w)| == |rows|
  {
    if entries != [] {
      TriedLength(rows, entries[..|entries| - 1], w);
    }
  }
}

/** Runs of the dispatcher: nothing unpublished is lost, and how far the queue drains. */
module OutboxRuns {
  import opened Outboxes

  datatype Action =
    | Write(id: string, kind: string, wellFormed: bool)
    | Tick(weather: Weather)
    | Clean(cutoff: int)

  /** The outbox and the type of every entry ever written. */
  datatype History = History(outbox: Outbox, written: map<string, string>)

  function Step(h: History, a: Action, batch: int): History {
    match a
    case Write(id, kind, wellFormed) =>
      if HasId(h.outbox.rows, id) then h
      else History(h.outbox.(rows := Written(h.outbox.rows, id, kind, wellFormed)), h.written[id := kind])
    case Tick(w) => h.(outbox := Ticked(h.outbox, w, batch))
    case Clean(cutoff) => h.(outbox := h.outbox.(rows := Cleaned(h.outbox.rows, cutoff)))
  }

  function Run(h: History, actions: seq<Action>, batch: int): History
    decreases |actions|
  {
    if actions == [] then h else Run(Step(h, actions[0], batch), actions[1..], batch)
  }

  // ---- safety ----

  /** A published row of a known type was sent. */
  ghost predicate RowOk(e: Entry, o: Outbox) {
    e.published && Known(e.kind) ==> e.id in o.sent
  }

  /** A row carries the type it was written with. */
  ghost predicate Safe(h: History) {
    var o := h.outbox;
    && UniqueIds(o.rows)
    && (forall i :: 0 <= i < |o.rows| ==> RowOk(o.rows[i], o) && o.rows[i].id in h.written && h.written[o.rows[i].id] == o.rows[i].kind)
    && (forall id <- h.written :: HasId(o.rows, id) || (Known(h.written[id]) ==> id in o.sent))
  }

  lemma TickKeepsRow(o: Outbox, w: Weather, batch: int, i: nat)
    requires i < |o.rows| && RowOk(o.rows[i], o)
    ensures var p := Ticked(o, w, batch);
            |p.rows| == |o.rows| && p.rows[i].id == o.rows[i].id && p.rows[i].kind == o.rows[i].kind && RowOk(p.rows[i], p)
  {
    hide Waiting;
    if w.fetched && InBatch(o.rows, i, batch) && Sends(o.rows[i], w) {
      assert o.rows[i].id in SentIn(o.rows, w, batch);
    }
  }

  lemma TickKeepsSafe(h: History, w: Weather, batch: int)
    requires Safe(h)
    ensures Safe(Step(h, Tick(w), batch))
  {
    var o, p := h.outbox, Ticked(h.outbox, w, batch);
    assert o.sent <= p.sent && |p.rows| == |o.rows|;
    forall i | 0 <= i < |o.rows| ensures p.rows[i].id == o.rows[i].id && p.rows[i].kind == o.rows[i].kind && RowOk(p.rows[i], p) {
      TickKeepsRow(o, w, batch, i);
    }
    hide Ticked;
    forall id <- h.written ensures HasId(p.rows, id) || (Known(h.written[id]) ==> id in p.sent) {
      if HasId(o.rows, id) {
        var i :| 0 <= i < |o.rows| && o.rows[i].id == id;
        assert p.rows[i].id == id;
      }
    }
  }

  /** Cleaning keeps exactly the rows that are unpublished or recent. */
  lemma {:induction false} CleanMembers(rows: seq<Entry>, cutoff: int, e: Entry)
    ensures e in Cleaned(rows, cutoff) <==> e in rows && !(e.published && e.publishedAt < cutoff)
  {
    if rows != [] {
      var n := |rows| - 1;
      CleanMembers(rows[..n], cutoff, e);
      assert rows == rows[..n] + [rows[n]];
    }
  }

  lemma {:induction false} CleanUnique(rows: seq<Entry>, cutoff: int)
    requires UniqueIds(rows)
    ensures UniqueIds(Cleaned(rows, cutoff))
  {
    if rows != [] {
      var n := |rows| - 1;
      CleanUnique(rows[..n], cutoff);
      var kept := Cleaned(rows[..n], cutoff);
      forall j | 0 <= j < |kept| ensures kept[j].id != rows[n].id {
        CleanMembers(rows[..n], cutoff, kept[j]);
        assert kept[j] in rows[..n];
      }
    }
  }

  lemma CleanKeepsSafe(h: History, cutoff: int, batch: int)
    requires Safe(h)
    ensures Safe(Step(h, Clean(cutoff), batch))
  {
    var o := h.outbox;
    var kept := Cleaned(o.rows, cutoff);
    CleanUnique(o.rows, cutoff);
    hide Cleaned;
    forall i | 0 <= i < |kept| ensures kept[i] in o.rows {
      CleanMembers(o.rows, cutoff, kept[i]);
    }
    forall id <- h.written ensures HasId(kept, id) || (Known(h.written[id]) ==> id in o.sent) {
      if HasId(o.rows, id) {
        var i :| 0 <= i < |o.rows| && o.rows[i].id == id;
        CleanMembers(o.rows, cutoff, o.rows[i]);
        if o.rows[i] in kept {
          var j :| 0 <= j < |kept| && kept[j] == o.rows[i];
        } else {
          assert RowOk(o.rows[i], o);
        }
      }
    }
  }

  lemma WriteKeepsSafe(h: History, id: string, kind: string, wellFormed: bool, batch: int)
    requires Safe(h)
    ensures Safe(Step(h, Write(id, kind, wellFormed), batch))
  {
    var o := h.outbox;
    if !HasId(o.rows, id) {
      var rows := Written(o.rows, id, kind, wellFormed);
      assert rows[|o.rows|].id == id;
      forall x <- h.written | HasId(o.rows, x) ensures HasId(rows, x) {
        var i :| 0 <= i < |o.rows| && o.rows[i].id == x;
        assert rows[i].id == x;
      }
    }
  }

  lemma {:induction false} RunKeepsSafe(h: History, actions: seq<Action>, batch: int)
    requires Safe(h)
    ensures Safe(Run(h, actions, batch))
    decreases |actions|
  {
    if actions != [] {
      match actions[0] {
        case Write(id, kind, wellFormed) => WriteKeepsSafe(h, id, kind, wellFormed, batch);
        case Tick(w) => TickKeepsSafe(h, w, batch);
        case Clean(cutoff) => CleanKeepsSafe(h, cutoff, batch);
      }
      hide Safe, Step;
      RunKeepsSafe(Step(h, actions[0], batch), actions[1..], batch);
    }
  }

  ghost predicate Empty(h: History) {
    h.outbox.rows == [] && h.written == map[]
  }

  /** Whatever sends, marks and fetches fail, and whatever is cleaned: a published entry of a known type was
      sent, and an entry that has left the table without having been sent was of no known type. */
  lemma PublishedWasSent(h: History, actions: seq<Action>, batch: int)
    requires Empty(h)
    ensures var z := Run(h, actions, batch);
            && (forall i :: 0 <= i < |z.outbox.rows| && z.outbox.rows[i].published && Known(z.outbox.rows[i].kind) ==>
                              z.outbox.rows[i].id in z.outbox.sent)
            && (forall id <- z.written :: HasId(z.outbox.rows, id) || (Known(z.written[id]) ==> id in z.outbox.sent))
  {
    RunKeepsSafe(h, actions, batch);
    var z := Run(h, actions, batch);
    hide Run;
    assert forall i :: 0 <= i < |z.outbox.rows| ==> RowOk(z.outbox.rows[i], z.outbox);
  }

  /** No step removes an unpublished row. */
  lemma UnpublishedIsKept(h: History, a: Action, batch: int, i: nat)
    requires i < |h.outbox.rows| && !h.outbox.rows[i].published
    ensures HasId(Step(h, a, batch).outbox.rows, h.outbox.rows[i].id)
  {
    var e, rows := h.outbox.rows[i], Step(h, a, batch).outbox.rows;
    if a.Clean? {
      CleanMembers(h.outbox.rows, a.cutoff, e);
      var j :| 0 <= j < |rows| && rows[j] == e;
    } else {
      assert |rows| >= |h.outbox.rows| && rows[i].id == e.id;
    }
  }

  /** Kafka is handed nothing but parseable entries of the two known types, from unpublished rows. */
  lemma OnlyKnownTypesSent(o: Outbox, w: Weather, batch: int, id: string)
    requires id in Ticked(o, w, batch).sent && id !in o.sent
    ensures exists i :: 0 <= i < |o.rows| && o.rows[i].id == id && !o.rows[i].published && o.rows[i].wellFormed
                        && (o.rows[i].kind == "TradeExecuted" || o.rows[i].kind == "PositionUpdated") && w.sends(id)
  {
    hide Waiting;
    var i :| 0 <= i < |o.rows| && InBatch(o.rows, i, batch) && Sends(o.rows[i], w) && o.rows[i].id == id;
  }

  /** Cleaning keeps the order of the rows: it goes through the table piece by piece. */
  lemma {:induction false} CleanInOrder(a: seq<Entry>, b: seq<Entry>, cutoff: int)
    ensures Cleaned(a + b, cutoff) == Cleaned(a, cutoff) + Cleaned(b, cutoff)
  {
    if b == [] {
      assert a + b == a;
    } else {
      var n := |b| - 1;
      assert (a + b)[..|a + b| - 1] == a + b[..n];
      CleanInOrder(a, b[..n], cutoff);
    }
  }

  /** A new entry waits behind all others, unpublished and untried; a known id changes nothing. */
  lemma NewestIsLast(rows: seq<Entry>, id: string, kind: string, wellFormed: bool)
    ensures var after := Written(rows, id, kind, wellFormed);
            && rows <= after && (HasId(rows, id) ==> after == rows)
            && (!HasId(rows, id) ==>
                  && |after| == |rows| + 1
                  && var e := after[|rows|];
                     e.id == id && e.kind == kind && e.wellFormed == wellFormed && !e.published && e.retries == 0)
  {
  }

  // ---- draining ----

  /** Nothing fails on the outside. */
  ghost predicate Fine(w: Weather) {
    w.fetched && w.marked && forall id: string :: w.sends(id)
  }

  ghost predicate AllFine(ws: seq<Weather>) {
    forall i :: 0 <= i < |ws| ==> Fine(ws[i])
  }

  function Ticks(rows: seq<Entry>, ws: seq<Weather>, batch: nat): seq<Entry>
    decreases |ws|
  {
    if ws == [] then rows else Ticks(TickedRows(rows, ws[0], batch), ws[1..], batch)
  }

  /** Unpublished rows whose payload can never be parsed. */
  function Poison(rows: seq<Entry>): nat {
    if rows == [] then 0
    else Poison(rows[..|rows| - 1]) + if !rows[|rows| - 1].published && !rows[|rows| - 1].wellFormed then 1 else 0
  }

  function Excess(n: nat, batch: nat): nat {
    if n > batch then n - batch else 0
  }

  /** A row's fate in a tick depends only on the rows before it. */
  lemma TickOfPrefix(rows: seq<Entry>, w: Weather, batch: int, n: nat)
    requires n <= |rows|
    ensures TickedRows(rows, w, batch)[..n] == TickedRows(rows[..n], w, batch)
  {
    hide AfterAttempt, Waiting;
    forall i | 0 <= i < n ensures TickedRows(rows, w, batch)[i] == TickedRows(rows[..n], w, batch)[i] {
      assert rows[..n][..i] == rows[..i];
    }
  }

  /** One fine tick: poison stays, and of the rest all but the excess over the batch goes. */
  lemma {:induction false} TickServes(rows: seq<Entry>, w: Weather, batch: nat)
    requires Fine(w)
    ensures var after := TickedRows(rows, w, batch);
            && Poison(after) == Poison(rows) <= Waiting(rows)
            && Excess(Waiting(rows), batch) <= Waiting(after) <= Poison(rows) + Excess(Waiting(rows), batch)
  {
    if rows != [] {
      var n := |rows| - 1;
      var after := TickedRows(rows, w, batch);
      TickServes(rows[..n], w, batch);
      TickOfPrefix(rows, w, batch, n);
      assert after[..n] == TickedRows(rows[..n], w, batch);
    }
  }

  /** Without a limit one fine tick leaves nothing but poison. */
  lemma {:induction false} UnlimitedTickServesAll(rows: seq<Entry>, w: Weather, batch: int)
    requires Fine(w) && batch < 0
    ensures Waiting(TickedRows(rows, w, batch)) == Poison(rows)
  {
    if rows != [] {
      var n := |rows| - 1;
      UnlimitedTickServesAll(rows[..n], w, batch);
      TickOfPrefix(rows, w, batch, n);
    }
  }

  lemma TicksStep(rows: seq<Entry>, ws: seq<Weather>, batch: nat)
    requires ws != []
    ensures Ticks(rows, ws, batch) == Ticks(TickedRows(rows, ws[0], batch), ws[1..], batch)
    ensures AllFine(ws) ==> Fine(ws[0]) && AllFine(ws[1..])
  {
  }

  /** With parseable payloads, k fine ticks take exactly k batches off the queue: n entries drain in the n
      divided by the batch size, rounded up, and no sooner. */
  lemma {:induction false} DrainsExactly(rows: seq<Entry>, ws: seq<Weather>, batch: nat)
    requires AllFine(ws) && Poison(rows) == 0
    ensures Waiting(Ticks(rows, ws, batch)) == Excess(Waiting(rows), |ws| * batch)
    decreases |ws|
  {
    if ws != [] {
      TicksStep(rows, ws, batch);
      hide Ticks, TickedRows, Poison, Waiting, Fine, AllFine;
      TickServes(rows, ws[0], batch);
      var after := TickedRows(rows, ws[0], batch);
      DrainsExactly(after, ws[1..], batch);
      ExcessTwice(Waiting(rows), |ws[1..]|, batch);
    }
  }

  lemma ExcessTwice(n: nat, k: nat, batch: nat)
    ensures Excess(Excess(n, batch), k * batch) == Excess(n, (k + 1) * batch)
  {
    var rest := k * batch;
    assert (k + 1) * batch == rest + batch;
  }

  lemma DrainedIff(rows: seq<Entry>, ws: seq<Weather>, batch: nat)
    requires AllFine(ws) && Poison(rows) == 0
    ensures Waiting(Ticks(rows, ws, batch)) == 0 <==> |ws| * batch >= Waiting(rows)
  {
    DrainsExactly(rows, ws, batch);
  }

  // ---- poison at the head of the queue ----

  lemma {:induction false} PublishedStays(rows: seq<Entry>, ws: seq<Weather>, batch: nat, i: nat)
    requires i < |rows| && rows[i].published
    ensures |Ticks(rows, ws, batch)| == |rows| && Ticks(rows, ws, batch)[i].published
    decreases |ws|
  {
    if ws != [] {
      PublishedStays(TickedRows(rows, ws[0], batch), ws[1..], batch, i);
    }
  }

  /** An entry behind fewer poison entries than fit in a batch is published after at most as many ticks as
      entries wait before it, plus one. */
  lemma {:induction false} GetsThrough(rows: seq<Entry>, ws: seq<Weather>, batch: nat, i: nat)
    requires AllFine(ws) && i < |rows| && rows[i].wellFormed && Poison(rows[..i]) < batch && |ws| > Waiting(rows[..i])
    ensures |Ticks(rows, ws, batch)| == |rows| && Ticks(rows, ws, batch)[i].published
    decreases |ws|
  {
    var after := TickedRows(rows, ws[0], batch);
    TicksStep(rows, ws, batch);
    TickServes(rows[..i], ws[0], batch);
    TickOfPrefix(rows, ws[0], batch, i);
    assert after[i].published || after[i] == rows[i];
    if after[i].published {
      PublishedStays(after, ws[1..], batch, i);
    } else {
      assert Waiting(rows[..i]) >= batch;
      hide Ticks, TickedRows, Poison, Waiting, Fine, AllFine;
      GetsThrough(after, ws[1..], batch, i);
    }
  }

  /** Behind a batch of poison entries an entry is never published, however long the dispatcher runs: no
      retry limit takes them out of the query. */
  lemma {:induction false} StaysStuck(rows: seq<Entry>, ws: seq<Weather>, batch: nat, i: nat)
    requires AllFine(ws) && i < |rows| && !rows[i].published && Poison(rows[..i]) >= batch
    ensures |Ticks(rows, ws, batch)| == |rows| && !Ticks(rows, ws, batch)[i].published
    decreases |ws|
  {
    if ws != [] {
      var after := TickedRows(rows, ws[0], batch);
      TicksStep(rows, ws, batch);
      TickServes(rows[..i], ws[0], batch);
      TickOfPrefix(rows, ws[0], batch, i);
      assert after[i] == rows[i];
      hide Ticks, TickedRows, Poison, Waiting, Fine, AllFine;
      StaysStuck(after, ws[1..], batch, i);
    }
  }

  /** So a parseable entry is published in the long run if and only if fewer poison entries than the batch
      size were created before it. */
  lemma PublishedInTheEndIff(rows: seq<Entry>, batch: nat, i: nat, ws: seq<Weather>)
    requires i < |rows| && rows[i].wellFormed && !rows[i].published && AllFine(ws) && |ws| > Waiting(rows[..i])
    ensures |Ticks(rows, ws, batch)| == |rows|
    ensures Ticks(rows, ws, batch)[i].published <==> Poison(rows[..i]) < batch
  {
    if Poison(rows[..i]) < batch {
      GetsThrough(rows, ws, batch, i);
    } else {
      StaysStuck(rows, ws, batch, i);
    }
  }

  // ---- retries ----

  /** How often row i was tried, failed and had its error recorded. */
  function Failures(rows: seq<Entry>, ws: seq<Weather>, batch: int, i: nat): nat
    requires i < |rows|
    decreases |ws|
  {
    if ws == [] then 0
    else
      var e, w := rows[i], ws[0];
      var failed := !e.wellFormed || ((e.kind == "TradeExecuted" || e.kind == "PositionUpdated") && !w.sends(e.id));
      (if InBatch(rows, i, batch) && failed && w.recorded(e.id) then 1 else 0) + Failures(TickedRows(rows, w, batch), ws[1..], batch, i)
  }

  /** One tick on one row, in full. */
  lemma TickOnRow(rows: seq<Entry>, w: Weather, batch: int, i: nat)
    requires i < |rows|
    ensures var e, f := rows[i], TickedRows(rows, w, batch)[i];
            var failed := !e.wellFormed || ((e.kind == "TradeExecuted" || e.kind == "PositionUpdated") && !w.sends(e.id));
            && f.id == e.id && f.kind == e.kind && f.wellFormed == e.wellFormed
            && (InBatch(rows, i, batch) && failed && w.recorded(e.id) ==>
                  f.retries == e.retries + 1 && f.lastError == w.message(e.id))
            && (!(InBatch(rows, i, batch) && failed && w.recorded(e.id)) ==> f.retries == e.retries && f.lastError == e.lastError)
            && (InBatch(rows, i, batch) && !failed && w.marked ==> f.published && f.publishedAt == w.now)
            && (!(InBatch(rows, i, batch) && !failed && w.marked) ==> f.published == e.published && f.publishedAt == e.publishedAt)
  {
    hide InBatch;
  }

  /** Over any ticks the retry count of a row is the number of its recorded failures. */
  lemma {:induction false} RetriesCountFailures(rows: seq<Entry>, ws: seq<Weather>, batch: nat, i: nat)
    requires i < |rows|
    ensures |Ticks(rows, ws, batch)| == |rows|
    ensures Ticks(rows, ws, batch)[i].retries == rows[i].retries + Failures(rows, ws, batch, i)
    decreases |ws|
  {
    if ws != [] {
      TickOnRow(rows, ws[0], batch, i);
      hide InBatch, AfterAttempt;
      RetriesCountFailures(TickedRows(rows, ws[0], batch), ws[1..], batch, i);
    }
  }
}
