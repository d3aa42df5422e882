/**
  What a tick of the scheduler does to the tables when nothing else happens and no call
  fails. `Services.SchedulerService.ProcessDue` is proved to compute `TickOnce`; here is
  what that means for each delivery.
*/
module Promotions {
  import opened Notification
  import opened Protocol

  function RowPromoted(cfg: Config, db: Db, id: nat, now: int): Db {
    if !HasStatus(db, id, Pending) then db
    else
      var d := Stamped(db.deliveries[id], Queued, now);
      WithProcessed(Enqueued(Updated(db, d), id, SubjectOf(cfg, d)), id)
  }

  function TickOnce(cfg: Config, db: Db, ids: seq<nat>, now: int): Db
    decreases |ids|
  {
    if ids == [] then db else TickOnce(cfg, RowPromoted(cfg, db, ids[0], now), ids[1..], now)
  }

  /** The number of outbox rows of a delivery. */
  function RowsOf(outbox: seq<OutboxRow>, id: nat): nat {
    if outbox == [] then 0
    else RowsOf(outbox[..|outbox| - 1], id) + if outbox[|outbox| - 1].delivery == id then 1 else 0
  }

  /** Nothing of the delivery is touched. */
  ghost predicate SameFor(a: Db, b: Db, x: nat) {
    && (x in b.deliveries <==> x in a.deliveries) && (x in a.deliveries ==> b.deliveries[x] == a.deliveries[x])
    && (x in b.scheduled <==> x in a.scheduled) && (x in a.scheduled ==> b.scheduled[x] == a.scheduled[x])
    && RowsOf(b.outbox, x) == RowsOf(a.outbox, x)
  }

  /** A new pending outbox row of the delivery, under its subject. */
  predicate NewRow(cfg: Config, a: Db, b: Db, x: nat, r: nat) {
    && |a.outbox| <= r < |b.outbox| && x in a.deliveries
    && var d := a.deliveries[x];
       b.outbox[r] == OutboxRow(x, Routing.NotificationSubject(cfg.prefix, d.key.channel, d.priority), false, 0)
  }

  /** The delivery is promoted: queued, with one more outbox row, and its scheduled row is processed. */
  ghost predicate PromotedFor(cfg: Config, a: Db, b: Db, x: nat, now: int) {
    && x in a.deliveries && x in b.deliveries && b.deliveries[x] == a.deliveries[x].(status := Queued, updatedAt := now)
    && (exists r :: NewRow(cfg, a, b, x, r))
    && (x in a.scheduled ==> x in b.scheduled && b.scheduled[x] == a.scheduled[x].(processed := true))
    && RowsOf(b.outbox, x) == RowsOf(a.outbox, x) + 1
  }

  /** What becomes of each table. */
  lemma TablesPromoted(cfg: Config, db: Db, id: nat, now: int)
    requires RowIds(db) && HasStatus(db, id, Pending)
    ensures var after, d := RowPromoted(cfg, db, id, now), db.deliveries[id];
            && after.deliveries == db.deliveries[id := d.(status := Queued, updatedAt := now)]
            && after.outbox == db.outbox + [OutboxRow(id, Routing.NotificationSubject(cfg.prefix, d.key.channel, d.priority), false, 0)]
            && after.scheduled == if id in db.scheduled then db.scheduled[id := db.scheduled[id].(processed := true)] else db.scheduled
  {
  }

  lemma PromotedOne(cfg: Config, db: Db, id: nat, now: int, x: nat)
    requires RowIds(db)
    ensures var after := RowPromoted(cfg, db, id, now);
            && RowIds(after) && db.outbox <= after.outbox
            && if x == id && HasStatus(db, id, Pending) then PromotedFor(cfg, db, after, x, now) else SameFor(db, after, x)
  {
    if HasStatus(db, id, Pending) {
      TablesPromoted(cfg, db, id, now);
      var after := RowPromoted(cfg, db, id, now);
      assert after.outbox[..|db.outbox|] == db.outbox;
      if x == id { assert NewRow(cfg, db, after, x, |db.outbox|); }
    }
  }

  lemma NewRowStays(cfg: Config, a: Db, m: Db, b: Db, x: nat)
    requires a.outbox <= m.outbox <= b.outbox
    ensures (exists r :: NewRow(cfg, a, m, x, r)) ==> exists r :: NewRow(cfg, a, b, x, r)
    ensures x in a.deliveries && x in m.deliveries && m.deliveries[x] == a.deliveries[x] && (exists r :: NewRow(cfg, m, b, x, r)) ==>
              exists r :: NewRow(cfg, a, b, x, r)
  {
    if r :| NewRow(cfg, a, m, x, r) {
      assert NewRow(cfg, a, b, x, r);
    } else if r :| NewRow(cfg, m, b, x, r) && x in a.deliveries && x in m.deliveries && m.deliveries[x] == a.deliveries[x] {
      assert NewRow(cfg, a, b, x, r);
    }
  }

  /** A tick promotes exactly the pending deliveries it has fetched, each once, and touches no other. */
  lemma {:induction false} TickPromotes(cfg: Config, db: Db, ids: seq<nat>, now: int, x: nat)
    requires RowIds(db) && forall i, j :: 0 <= i < j < |ids| ==> ids[i] != ids[j]
    ensures var after := TickOnce(cfg, db, ids, now);
            && db.outbox <= after.outbox
            && if x in ids && HasStatus(db, x, Pending) then PromotedFor(cfg, db, after, x, now) else SameFor(db, after, x)
    decreases |ids|
  {
    if ids != [] {
      var next := RowPromoted(cfg, db, ids[0], now);
      PromotedOne(cfg, db, ids[0], now, x);
      TickPromotes(cfg, next, ids[1..], now, x);
      NewRowStays(cfg, db, next, TickOnce(cfg, next, ids[1..], now), x);
      assert x in ids <==> x == ids[0] || x in ids[1..];
      assert x == ids[0] ==> x !in ids[1..];
    }
  }
}
