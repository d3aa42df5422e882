/**
  The delivery record and its status machine (internal/domain/notification).

  `Row` is the persisted record, `Delivery` the in-memory object whose methods
  move it through the statuses. Each method is specified by a function on rows;
  the protocol modules reason about those functions.
*/
module Notification {
  import opened Wrappers

  datatype Channel = Email | Sms | Push | Webhook

  datatype Priority = Low | Normal | High

  const ALL_CHANNELS: seq<Channel> := [Email, Sms, Push, Webhook]
  const ALL_PRIORITIES: seq<Priority> := [Low, Normal, High]

  datatype Status =
    | Pending | Queued | Processing | Retrying | Succeeded
    | Failed | Dlq | Cancelled | Rejected

  predicate IsTerminal(s: Status) {
    s in {Succeeded, Failed, Dlq, Cancelled, Rejected}
  }

  /** The idempotency scope: a client key is unique per channel. */
  datatype Key = Key(name: string, channel: Channel)

  /** A row of the deliveries table. The first five columns never change after insertion. */
  datatype Row = Row(
    id: nat, key: Key, priority: Priority, scheduledAt: Option<int>, createdAt: int,
    status: Status, retryCount: int, lastError: string, updatedAt: int)

  /** One dispatch attempt. The zero Attempt that moveToDLQ passes is modelled as None. */
  datatype Attempt = Attempt(number: int, startedAt: int, finishedAt: Option<int>, error: string, success: bool)

  predicate SameIdentity(a: Row, b: Row) {
    && a.id == b.id && a.key == b.key && a.priority == b.priority
    && a.scheduledAt == b.scheduledAt && a.createdAt == b.createdAt
  }

  predicate ShouldSchedule(d: Row, now: int) {
    d.scheduledAt.Some? && d.scheduledAt.value > now
  }

  /** The scheduled time, if there is one, has come. */
  predicate Due(d: Row, now: int) {
    d.scheduledAt.Some? ==> d.scheduledAt.value <= now
  }

  predicate CanStart(s: Status) { s in {Queued, Retrying} }

  predicate CanReplay(s: Status) { s in {Dlq, Failed} }

  function Stamped(d: Row, status: Status, now: int): Row {
    d.(status := status, updatedAt := now)
  }

  function MarkedSucceeded(d: Row, now: int): Row {
    Stamped(d, Succeeded, now).(lastError := "")
  }

  function MarkedRetrying(d: Row, error: string, now: int): Row {
    Stamped(d, Retrying, now).(retryCount := d.retryCount + 1, lastError := error)
  }

  function MarkedDlq(d: Row, error: string, now: int): Row {
    Stamped(d, Dlq, now).(lastError := error)
  }

  /** The edges of the status machine: what any persisted status may become. */
  predicate Edge(a: Status, b: Status) {
    match a
    case Pending => b == Queued
    case Queued => b == Processing
    case Processing => b in {Succeeded, Retrying, Dlq}
    case Retrying => b == Processing
    case Dlq => b == Queued
    case _ => false
  }

  /** The in-memory delivery that the services load, mutate and write back. */
  class Delivery {
    const id: nat
    const key: Key
    const priority: Priority
    const scheduledAt: Option<int>
    const createdAt: int
    var status: Status
    var retryCount: int
    var lastError: string
    var updatedAt: int
    var attempts: seq<Attempt>

    /** scanDelivery: the attempts list is not loaded from the database. */
    constructor (row: Row)
      ensures View() == row && attempts == []
    {
      id, key, priority, scheduledAt, createdAt := row.id, row.key, row.priority, row.scheduledAt, row.createdAt;
      status, retryCount, lastError, updatedAt := row.status, row.retryCount, row.lastError, row.updatedAt;
      attempts := [];
    }

    function View(): Row
      reads this
    {
      Row(id, key, priority, scheduledAt, createdAt, status, retryCount, lastError, updatedAt)
    }

    method Queue(now: int) returns (ok: bool)
      modifies this`status, this`updatedAt
      ensures ok <==> old(status) == Pending
      ensures ok ==> status == Queued && updatedAt == now
      ensures View() == if ok then Stamped(old(View()), Queued, now) else old(View())
    {
      if status != Pending {
        return false;
      }
      status := Queued;
      updatedAt := now;
      return true;
    }

    method StartProcessing(now: int) returns (ok: bool)
      modifies this`status, this`updatedAt
      ensures ok <==> old(status) == Queued || old(status) == Retrying
      ensures ok ==> status == Processing && updatedAt == now
      ensures View() == if ok then Stamped(old(View()), Processing, now) else old(View())
    {
      match status
      case Queued | Retrying =>
        status := Processing;
        updatedAt := now;
        return true;
      case _ =>
        return false;
    }

    method RecordAttempt(attempt: Attempt, now: int)
      modifies this`attempts, this`updatedAt
      ensures attempts == old(attempts) + [attempt]
      ensures View() == old(View()).(updatedAt := now)
    {
      attempts := attempts + [attempt];
      updatedAt := now;
    }

    /** The caller's own attempt is passed by value and stays unsuccessful. */
    method MarkSucceeded(attempt: Attempt, now: int)
      modifies this
      ensures View() == MarkedSucceeded(old(View()), now)
      ensures status == Succeeded && lastError == "" && updatedAt == now && retryCount == old(retryCount)
      ensures attempts == old(attempts) + [attempt.(success := true, finishedAt := Some(now))]
    {
      RecordAttempt(attempt.(success := true, finishedAt := Some(now)), now);
      status := Succeeded;
      updatedAt := now;
      lastError := "";
    }

    method MarkRetrying(attempt: Attempt, error: string, now: int)
      modifies this
      ensures View() == MarkedRetrying(old(View()), error, now)
      ensures status == Retrying && lastError == error && updatedAt == now && retryCount == old(retryCount) + 1
      ensures attempts == old(attempts) + [attempt.(success := false, error := error, finishedAt := Some(now))]
    {
      RecordAttempt(attempt.(success := false, error := error, finishedAt := Some(now)), now);
      status := Retrying;
      retryCount := retryCount + 1;
      lastError := error;
      updatedAt := now;
    }

    method MarkDlq(attempt: Option<Attempt>, error: string, now: int)
      modifies this
      ensures View() == MarkedDlq(old(View()), error, now)
      ensures status == Dlq && lastError == error && updatedAt == now && retryCount == old(retryCount)
      ensures attempts == old(attempts) +
                          if attempt.None? then []
                          else [attempt.value.(success := false, error := error, finishedAt := Some(now))]
    {
      if attempt.Some? {
        RecordAttempt(attempt.value.(success := false, error := error, finishedAt := Some(now)), now);
      }
      status := Dlq;
      lastError := error;
      updatedAt := now;
    }

    method Replay(now: int) returns (ok: bool)
      modifies this`status, this`updatedAt
      ensures ok <==> old(status) == Dlq || old(status) == Failed
      ensures ok ==> status == Queued && updatedAt == now
      ensures View() == if ok then Stamped(old(View()), Queued, now) else old(View())
    {
      if status != Dlq && status != Failed {
        return false;
      }
      status := Queued;
      updatedAt := now;
      return true;
    }
  }
}
