/**
  What a step of one kind of process leaves alone: the program counters of all others,
  the tables it does not write, and what nobody ever takes back.
*/
module Frames {
  import opened Notification
  import opened Protocol

  /** The outbox has at most got one more pending row. */
  predicate Grown(before: seq<OutboxRow>, after: seq<OutboxRow>) {
    after == before || (after != [] && after[..|after| - 1] == before && !after[|after| - 1].published)
  }

  /** No outbox row is gone, and no update touches what it is about. */
  ghost predicate OutboxKept(before: seq<OutboxRow>, after: seq<OutboxRow>) {
    && |before| <= |after|
    && forall r :: 0 <= r < |before| ==> after[r].delivery == before[r].delivery && after[r].subject == before[r].subject
  }

  /** A commit of a new key is the only step of a client that writes to the database. */
  lemma ClientFrame(cfg: Config, s: State, c: nat, op: ClientOp)
    requires ClientCan(s, c, op)
    ensures var t := ClientDoes(cfg, s, c, op);
            && t == s.(nextId := t.nextId, db := t.db, clients := t.clients, log := s.log.(responses := t.log.responses))
            && t.db.attempts == s.db.attempts && Grown(s.db.outbox, t.db.outbox)
            && (forall key :: key in s.db.keys ==> key in t.db.keys && t.db.keys[key] == s.db.keys[key])
            && (t.db == s.db || (op.Commit? && Client(s, c).d.key !in s.db.keys))
            && forall b :: b != c ==> Client(t, b) == Client(s, b)
  {
    if op.Commit? { CommitFrame(cfg, s, c); }
  }

  lemma CommitFrame(cfg: Config, s: State, c: nat)
    requires Client(s, c).Committing?
    ensures var t := AfterCommit(cfg, s, c);
            && t == s.(db := t.db, clients := t.clients)
            && t.db.attempts == s.db.attempts && Grown(s.db.outbox, t.db.outbox)
            && (forall key :: key in s.db.keys ==> key in t.db.keys && t.db.keys[key] == s.db.keys[key])
            && (Client(s, c).d.key in s.db.keys ==> t.db == s.db)
            && forall b :: b != c ==> Client(t, b) == Client(s, b)
  {
    var Committing(d, expiresAt, schedule) := Client(s, c);
    if d.key !in s.db.keys { InsertedFrame(s.db, d, expiresAt, SubjectOf(cfg, d), schedule); }
  }

  lemma InsertedFrame(db: Db, d: Row, expiresAt: int, subject: string, schedule: bool)
    requires d.key !in db.keys
    ensures var after := Inserted(db, d, expiresAt, subject, schedule);
            && after.attempts == db.attempts && Grown(db.outbox, after.outbox)
            && forall key :: key in db.keys ==> key in after.keys && after.keys[key] == db.keys[key]
  {
  }

  lemma PublisherFrame(cfg: Config, s: State, p: nat, op: PublisherOp)
    requires PublisherCan(s, p, op)
    ensures var t := PublisherDoes(cfg, s, p, op);
            && t == s.(db := s.db.(outbox := t.db.outbox), bus := s.bus.(stream := t.bus.stream), publishers := t.publishers)
            && s.bus.stream <= t.bus.stream && |t.bus.stream| <= |s.bus.stream| + 1
            && OutboxKept(s.db.outbox, t.db.outbox) && |t.db.outbox| == |s.db.outbox|
            && forall q :: q != p ==> Publisher(t, q) == Publisher(s, q)
  {
  }

  lemma SchedulerFrame(cfg: Config, s: State, k: nat, op: SchedulerOp)
    requires SchedulerCan(cfg, s, k, op)
    ensures var t := SchedulerDoes(cfg, s, k, op);
            && t == s.(db := s.db.(deliveries := t.db.deliveries, outbox := t.db.outbox, scheduled := t.db.scheduled),
                       schedulers := t.schedulers)
            && t.db.deliveries.Keys == s.db.deliveries.Keys && Grown(s.db.outbox, t.db.outbox)
            && forall l :: l != k ==> Scheduler(t, l) == Scheduler(s, l)
  {
  }

  lemma WorkerFrame(cfg: Config, s: State, w: nat, op: WorkerOp)
    requires WorkerCan(cfg, s, w, op)
    ensures var t := WorkerDoes(cfg, s, w, op);
            && t == s.(db := s.db.(deliveries := t.db.deliveries, attempts := t.db.attempts),
                       bus := s.bus.(acked := t.bus.acked, dead := t.bus.dead),
                       workers := s.workers[w := Worker(t, w)], log := s.log.(sends := t.log.sends))
            && t.db.deliveries.Keys == s.db.deliveries.Keys && s.bus.acked <= t.bus.acked
  {
  }

  lemma ReplayFrame(cfg: Config, s: State, r: nat, op: ReplayOp)
    requires ReplayCan(cfg, s, r, op)
    ensures var t := ReplayDoes(cfg, s, r, op);
            && t == s.(db := s.db.(deliveries := t.db.deliveries), bus := s.bus.(stream := t.bus.stream), replays := t.replays)
            && t.db.deliveries.Keys == s.db.deliveries.Keys
            && s.bus.stream <= t.bus.stream && |t.bus.stream| <= |s.bus.stream| + 1
            && (forall m :: |s.bus.stream| <= m < |t.bus.stream| ==> t.bus.stream[m].replay)
            && forall q :: q != r ==> Replay(t, q) == Replay(s, q)
  {
  }

  /** Only workers move workers, record attempts, acknowledge copies and call the provider. */
  lemma OthersFrame(cfg: Config, s: State, a: Action)
    requires Enabled(cfg, s, a) && !a.ByWorker?
    ensures var t := Apply(cfg, s, a);
            && t.workers == s.workers && t.db.attempts == s.db.attempts && t.bus.acked == s.bus.acked
            && t.log.sends == s.log.sends && s.bus.stream <= t.bus.stream
  {
    match a
    case ByClient(c, op) => ClientFrame(cfg, s, c, op);
    case ByPublisher(p, op) => PublisherFrame(cfg, s, p, op);
    case ByScheduler(k, op) => SchedulerFrame(cfg, s, k, op);
    case ByReplay(r, op) => ReplayFrame(cfg, s, r, op);
    case _ =>
  }
}
