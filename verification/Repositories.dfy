/**
  The repositories (internal/adapters/postgres). A statement is atomic, and it may fail
  without effect, or take effect although its caller sees an error.
*/
module Repositories {
  import opened Wrappers
  import opened Notification
  import opened Protocol

  datatype IngestError = Duplicate | Broken

  class Store {
    var deliveries: map<nat, Row>
    var keys: map<Key, KeyRow>
    var outbox: seq<OutboxRow>
    var scheduled: map<nat, ScheduledRow>
    var attempts: seq<AttemptRow>

    constructor ()
      ensures View() == INIT.db
    {
      deliveries, keys, outbox, scheduled, attempts := map[], map[], [], map[], [];
    }

    function View(): Db
      reads this
    {
      Db(deliveries, keys, outbox, scheduled, attempts)
    }

    /** What other sessions have committed becomes visible. */
    method Refresh(db: Db)
      modifies this
      ensures View() == db
    {
      deliveries, keys, outbox, scheduled, attempts := db.deliveries, db.keys, db.outbox, db.scheduled, db.attempts;
    }

    // ----- Deliveries

    method FindByID(id: nat) returns (d: Option<Row>)
      ensures d == if id in deliveries then Some(deliveries[id]) else None
    {
      return if id in deliveries then Some(deliveries[id]) else None;
    }

    /** Joins the unexpired key with its delivery. */
    method FindByIdempotencyKey(key: Key, now: int) returns (d: Option<Row>)
      ensures d == match FindKey(View(), key, now)
                   case None => None
                   case Some(id) => if id in deliveries then Some(deliveries[id]) else None
    {
      if key in keys && keys[key].expiresAt > now && keys[key].delivery in deliveries {
        return Some(deliveries[keys[key].delivery]);
      }
      return None;
    }

    /** The columns that the statement sets, in the row with the given id. */
    method SetColumns(d: Row)
      requires d.id in deliveries
      modifies this`deliveries
      ensures View() == Updated(old(View()), d)
    {
      var row := deliveries[d.id];
      row := row.(status := d.status);
      row := row.(retryCount := d.retryCount);
      row := row.(lastError := d.lastError);
      row := row.(updatedAt := d.updatedAt);
      deliveries := deliveries[d.id := row];
    }

    method Update(d: Row, write: Write) returns (ok: bool)
      modifies this`deliveries
      ensures ok <==> write.Applied?
      ensures View() == if write.Lost? then old(View()) else Updated(old(View()), d)
    {
      if !write.Lost? && d.id in deliveries {
        SetColumns(d);
      }
      return write.Applied?;
    }

    /** Compare and swap on the status alone. */
    method UpdateIfStatus(d: Row, expected: Status, write: Write) returns (ok: bool, updated: bool)
      modifies this`deliveries
      ensures ok <==> write.Applied?
      ensures updated <==> ok && HasStatus(old(View()), d.id, expected)
      ensures View() == if write.Lost? then old(View()) else UpdatedIf(old(View()), d, expected)
    {
      var rows := 0;
      if !write.Lost? && d.id in deliveries && deliveries[d.id].status == expected {
        SetColumns(d);
        rows := 1;
      }
      if !write.Applied? {
        return false, false;
      }
      return true, rows > 0;
    }

    method RecordAttempt(id: nat, attempt: Attempt, write: Write) returns (ok: bool)
      modifies this`attempts
      ensures ok <==> write.Applied?
      ensures View() == if write.Lost? then old(View()) else WithAttempt(old(View()), id, attempt)
    {
      if !write.Lost? {
        attempts := attempts + [AttemptRow(id, attempt)];
      }
      return write.Applied?;
    }

    /**
      The ingest transaction. Its statements insert the delivery and claim the key; if another delivery
      has the key, all of them are rolled back.
    */
    method IngestTransactional(d: Row, expiresAt: int, subject: string, schedule: bool) returns (error: Option<IngestError>)
      requires d.id !in deliveries && forall key :: key in keys ==> keys[key].delivery != d.id
      modifies this
      ensures error == (if d.key in old(keys) then Some(Duplicate) else None)
      ensures View() == if error.Some? then old(View()) else Inserted(old(View()), d, expiresAt, subject, schedule)
    {
      var begin := View();
      deliveries := deliveries[d.id := d];
      if d.key !in keys {
        keys := keys[d.key := KeyRow(d.id, expiresAt)];
      }
      if keys[d.key].delivery != d.id {
        Refresh(begin);
        return Some(Duplicate);
      }
      if schedule && d.scheduledAt.Some? {
        scheduled := scheduled[d.id := ScheduledRow(d.scheduledAt.value, false)];
      } else {
        outbox := outbox + [OutboxRow(d.id, subject, false, 0)];
      }
      return None;
    }

    // ----- Outbox

    method Enqueue(id: nat, subject: string, write: Write) returns (ok: bool)
      modifies this`outbox
      ensures ok <==> write.Applied?
      ensures View() == if write.Lost? then old(View()) else Enqueued(old(View()), id, subject)
    {
      if !write.Lost? {
        outbox := outbox + [OutboxRow(id, subject, false, 0)];
      }
      return write.Applied?;
    }

    /** The oldest pending rows, up to the limit. */
    method FetchPending(limit: nat) returns (rows: seq<nat>)
      ensures rows == Oldest(outbox, 0, limit)
    {
      rows := [];
      var r := 0;
      while r < |outbox| && |rows| < limit
        invariant r <= |outbox| && |rows| <= limit
        invariant rows + Oldest(outbox, r, limit - |rows|) == Oldest(outbox, 0, limit)
      {
        OldestStep(rows, outbox, r, limit - |rows|);
        if !outbox[r].published {
          rows := rows + [r];
        }
        r := r + 1;
      }
    }

    method HasPublishedForDelivery(id: nat) returns (published: bool)
      ensures published <==> HasPublished(outbox, id)
    {
      var r := 0;
      while r < |outbox|
        invariant r <= |outbox|
        invariant forall q :: 0 <= q < r ==> !(outbox[q].delivery == id && outbox[q].published)
      {
        if outbox[r].delivery == id && outbox[r].published {
          return true;
        }
        r := r + 1;
      }
      return false;
    }

    method MarkPublished(r: nat, write: Write) returns (ok: bool)
      requires r < |outbox|
      modifies this`outbox
      ensures ok <==> write.Applied?
      ensures View() == if write.Lost? then old(View()) else WithPublished(old(View()), r)
    {
      if !write.Lost? {
        outbox := outbox[r := outbox[r].(published := true)];
      }
      return write.Applied?;
    }

    method MarkFailed(r: nat, write: Write)
      requires r < |outbox|
      modifies this`outbox
      ensures View() == if write.Lost? then old(View()) else WithFailure(old(View()), r)
    {
      if !write.Lost? {
        outbox := outbox[r := outbox[r].(attempts := outbox[r].attempts + 1)];
      }
    }

    // ----- Schedule

    /** The due rows in order of their time, up to the limit; rows of equal time come in any order. */
    method FetchDue(now: int, limit: nat) returns (ids: seq<nat>)
      ensures InDueOrder(scheduled, now, limit, ids)
    {
      ids := [];
      var rest := set id | id in scheduled && IsDueAt(scheduled, now, id);
      while rest != {} && |ids| < limit
        invariant |ids| <= limit
        invariant forall id :: id in scheduled && IsDueAt(scheduled, now, id) <==> id in rest || id in ids
        invariant forall i :: 0 <= i < |ids| ==> ids[i] !in rest
        invariant forall i, j :: 0 <= i < j < |ids| ==> ids[i] != ids[j] && scheduled[ids[i]].at <= scheduled[ids[j]].at
        invariant forall i, id :: 0 <= i < |ids| && id in rest ==> scheduled[ids[i]].at <= scheduled[id].at
      {
        EarliestExists(scheduled, rest);
        var id :| Earliest(scheduled, rest, id);
        ids := ids + [id];
        rest := rest - {id};
      }
    }

    method MarkProcessed(id: nat, write: Write) returns (ok: bool)
      modifies this`scheduled
      ensures ok <==> write.Applied?
      ensures View() == if write.Lost? then old(View()) else WithProcessed(old(View()), id)
    {
      if !write.Lost? && id in scheduled {
        scheduled := scheduled[id := scheduled[id].(processed := true)];
      }
      return write.Applied?;
    }
  }

  lemma OldestStep(rows: seq<nat>, outbox: seq<OutboxRow>, r: nat, limit: nat)
    requires r < |outbox| && limit > 0
    ensures rows + Oldest(outbox, r, limit) ==
            if outbox[r].published then rows + Oldest(outbox, r + 1, limit)
            else (rows + [r]) + Oldest(outbox, r + 1, limit - 1)
  {
  }
}
