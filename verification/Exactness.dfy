/**
  The two conditions of `Sound` are exactly what effectively-once needs. The code
  enforces neither: with two schedulers, or two overlapping replays, there is a
  run in which the provider accepts one delivery twice, and no failure is needed
  that would strand a delivery.
*/
module Exactness {
  import opened Wrappers
  import opened Notification
  import opened Protocol
  import opened Safety
  import opened Guarantees
  import opened Carriers

  // ----- Building runs

  /** The stored row `id` is as the schema has it, and a copy of a message for it is there to be pulled by `w`. */
  ghost predicate Pullable(cfg: Config, s: State, w: nat, copy: Copy, id: nat) {
    && Calm(cfg, s)
    && Worker(s, w).Free? && Outstanding(cfg, s.bus, copy) && (cfg.exclusiveHold ==> Unheld(s, copy))
    && s.bus.stream[copy.msg].delivery == id
    && id in s.db.deliveries && CanStart(s.db.deliveries[id].status) && s.db.deliveries[id].id == id
  }

  lemma ClaimRun(cfg: Config, s: State, w: nat, copy: Copy, id: nat) returns (t: State)
    requires Pullable(cfg, s, w, copy, id)
    ensures Calm(cfg, t)
    ensures var d := Stamped(s.db.deliveries[id], Processing, s.now);
            t == s.(db := s.db.(deliveries := s.db.deliveries[id := d]),
                    workers := s.workers[w := Owning(copy, d, d, None, Gating)])
  {
    var d := Stamped(s.db.deliveries[id], Processing, s.now);
    CalmByWorker(cfg, s, w, Pull(copy));
    var s1 := WorkerDoes(cfg, s, w, Pull(copy));
    CalmByWorker(cfg, s1, w, Find(true));
    var s2 := WorkerDoes(cfg, s1, w, Find(true));
    assert Worker(s2, w) == Claiming(copy, d, s.db.deliveries[id].status);
    CalmByWorker(cfg, s2, w, Claim(Applied));
    t := WorkerDoes(cfg, s2, w, Claim(Applied));
    assert WrittenBack(s.db.deliveries[id], d) == d;
    assert t.workers == s.workers[w := Owning(copy, d, d, None, Gating)];
  }

  lemma SendRun(cfg: Config, s: State, w: nat, result: SendResult) returns (t: State)
    requires Calm(cfg, s) && Worker(s, w).Owning? && Worker(s, w).stage == Gating
    ensures Calm(cfg, t)
    ensures var pc := Worker(s, w);
            var ready := s.(workers := s.workers[w := Owning(pc.copy, pc.d, pc.d, Some(NewAttempt(pc.d)), Sending)]);
            t == AfterSend(cfg, ready, w, result)
  {
    CalmByWorker(cfg, s, w, Gate(Cleared));
    var s1 := WorkerDoes(cfg, s, w, Gate(Cleared));
    CalmByWorker(cfg, s1, w, Send(result));
    t := WorkerDoes(cfg, s1, w, Send(result));
  }

  /** A worker takes a queued delivery to the provider, which accepts it, and stores the success. */
  lemma DeliverRun(cfg: Config, s: State, w: nat, copy: Copy, id: nat) returns (t: State)
    requires Pullable(cfg, s, w, copy, id)
    ensures Calm(cfg, t)
    ensures t == s.(db := t.db, workers := t.workers, log := t.log)
    ensures t.db == s.db.(deliveries := s.db.deliveries[id := MarkedSucceeded(Stamped(s.db.deliveries[id], Processing, s.now), s.now)])
    ensures exists pc: WorkerPc :: t.workers == s.workers[w := pc] && pc.Closing? && pc.copy == copy
    ensures t.log.sends == s.log.sends + [SendEvent(id, s.now, true)]
  {
    var s1 := ClaimRun(cfg, s, w, copy, id);
    var s2 := SendRun(cfg, s1, w, Delivered);
    CalmByWorker(cfg, s2, w, Save(Applied));
    t := WorkerDoes(cfg, s2, w, Save(Applied));
    assert t.workers == s.workers[w := t.workers[w]];
  }

  /** A worker takes a queued delivery to the provider, which rejects it for good. */
  lemma RejectRun(cfg: Config, s: State, w: nat, copy: Copy, id: nat) returns (t: State)
    requires Pullable(cfg, s, w, copy, id)
    ensures Calm(cfg, t)
    ensures t == s.(db := t.db, workers := t.workers, log := t.log)
    ensures t.db.deliveries.Keys == s.db.deliveries.Keys && HasStatus(t.db, id, Dlq)
    ensures t.db.deliveries[id].id == id
    ensures exists pc: WorkerPc :: t.workers == s.workers[w := pc] && pc.Closing? && pc.copy == copy
    ensures t.log.sends == s.log.sends + [SendEvent(id, s.now, false)]
  {
    var s1 := ClaimRun(cfg, s, w, copy, id);
    var s2 := SendRun(cfg, s1, w, PermanentError("rejected"));
    t := BuryRun(cfg, s2, w);
    assert t.workers == s.workers[w := t.workers[w]];
  }

  /** A worker records the failed attempt and stores the delivery as dead. */
  lemma BuryRun(cfg: Config, s: State, w: nat) returns (t: State)
    requires Calm(cfg, s) && w in s.workers && s.workers[w].Owning?
    requires s.workers[w].stage == RecordingDlq && s.workers[w].attempt.Some?
    ensures Calm(cfg, t)
    ensures w in t.workers && t == s.(db := t.db, workers := s.workers[w := t.workers[w]])
    ensures t.db.deliveries == Updated(s.db, s.workers[w].d).deliveries
    ensures t.workers[w].Closing? && t.workers[w].copy == s.workers[w].copy
  {
    CalmByWorker(cfg, s, w, Record(Applied));
    var s1 := WorkerDoes(cfg, s, w, Record(Applied));
    CalmByWorker(cfg, s1, w, Save(Applied));
    t := WorkerDoes(cfg, s1, w, Save(Applied));
    assert t.workers == s.workers[w := t.workers[w]];
  }

  /** Publisher 0 fetches the only outbox row and finds nothing published for its delivery. */
  lemma FetchRun(cfg: Config, s: State) returns (t: State)
    requires cfg.batch > 0 && Calm(cfg, s) && Publisher(s, 0).Waiting?
    requires |s.db.outbox| == 1 && !s.db.outbox[0].published
    ensures Calm(cfg, t) && t == s.(publishers := s.publishers[0 := Publishing(0, [])])
  {
    CalmByPublisher(cfg, s, 0, Fetch);
    var s1 := PublisherDoes(cfg, s, 0, Fetch);
    assert Oldest(s.db.outbox, 1, cfg.batch - 1) == [];
    assert s1.publishers[0] == Flushing([0]);
    CalmByPublisher(cfg, s1, 0, Check(true));
    t := PublisherDoes(cfg, s1, 0, Check(true));
    assert [0 as nat][1..] == [];
    assert t.publishers == s.publishers[0 := Publishing(0, [])];
  }

  /** Publisher 0 publishes the only outbox row. */
  lemma PublishRun(cfg: Config, s: State) returns (t: State)
    requires cfg.batch > 0 && Calm(cfg, s) && Publisher(s, 0).Waiting?
    requires |s.db.outbox| == 1 && !s.db.outbox[0].published
    ensures Calm(cfg, t)
    ensures t == s.(bus := Sent(s.bus, s.db.outbox[0].delivery, s.db.outbox[0].subject, false),
                    publishers := s.publishers[0 := Marking(0, [])])
  {
    var s1 := FetchRun(cfg, s);
    CalmByPublisher(cfg, s1, 0, Publish(Applied));
    t := PublisherDoes(cfg, s1, 0, Publish(Applied));
    assert t.publishers == s.publishers[0 := Marking(0, [])];
  }

  /** Publisher 0 publishes the only outbox row, and the mark is lost. */
  lemma PublishUnmarked(cfg: Config, s: State) returns (t: State)
    requires Calm(cfg, s) && Publisher(s, 0) == Publishing(0, []) && |s.db.outbox| == 1
    ensures Calm(cfg, t) && Publisher(t, 0).Waiting?
    ensures t == s.(bus := Sent(s.bus, s.db.outbox[0].delivery, s.db.outbox[0].subject, false), publishers := t.publishers)
  {
    CalmByPublisher(cfg, s, 0, Publish(Applied));
    var s1 := PublisherDoes(cfg, s, 0, Publish(Applied));
    CalmByPublisher(cfg, s1, 0, Mark(Lost));
    var s2 := PublisherDoes(cfg, s1, 0, Mark(Lost));
    CalmByPublisher(cfg, s2, 0, EndFlush);
    t := PublisherDoes(cfg, s2, 0, EndFlush);
  }

  /** Publisher 0 marks the row that it has published. */
  lemma MarkRun(cfg: Config, s: State) returns (t: State)
    requires Calm(cfg, s) && Publisher(s, 0) == Marking(0, []) && s.db.outbox != []
    ensures Calm(cfg, t) && t == s.(db := WithPublished(s.db, 0), publishers := s.publishers[0 := Waiting])
  {
    CalmByPublisher(cfg, s, 0, Mark(Applied));
    var s1 := PublisherDoes(cfg, s, 0, Mark(Applied));
    CalmByPublisher(cfg, s1, 0, EndFlush);
    t := PublisherDoes(cfg, s1, 0, EndFlush);
    assert t.publishers == s.publishers[0 := Waiting];
  }

  const REQUEST: Request := Request(Key("k", Email), Normal, None)
  const LATER: Request := Request(Key("k", Email), Normal, Some(1))

  lemma CommitRun(cfg: Config, s: State, c: nat, d: Row, expiresAt: int, schedule: bool) returns (t: State)
    requires Calm(cfg, s) && Client(s, c) == Committing(d, expiresAt, schedule) && d.key !in s.db.keys
    ensures Calm(cfg, t) && t == s.(db := t.db, clients := s.clients[c := Answering(Accepted(d.key, d.id, false))])
    ensures t.db == Inserted(s.db, d, expiresAt, SubjectOf(cfg, d), schedule)
  {
    CalmByClient(cfg, s, c, Commit);
    t := AfterCommit(cfg, s, c);
  }

  lemma LookupRun(cfg: Config, s: State, c: nat, req: Request) returns (t: State, d: Row)
    requires Calm(cfg, s) && Client(s, c).Away? && req.key !in s.db.keys
    ensures Calm(cfg, t) && t == s.(nextId := s.nextId + 1, clients := t.clients)
    ensures d == NewDelivery(s.nextId, req, s.now) && d.key == req.key && d.id == s.nextId
    ensures t.clients == s.clients[c := Committing(d, s.now + cfg.ttl, ShouldSchedule(d, s.now))]
  {
    CalmByClient(cfg, s, c, Lookup(req));
    d := NewDelivery(s.nextId, req, s.now);
    t := AfterLookup(cfg, s, c, req);
  }

  /** Client `c` ingests a request whose key is new. */
  lemma IngestRun(cfg: Config, s: State, c: nat, req: Request) returns (t: State, d: Row)
    requires Calm(cfg, s) && Client(s, c).Away? && req.key !in s.db.keys
    ensures Calm(cfg, t) && t == s.(nextId := s.nextId + 1, db := t.db, clients := t.clients)
    ensures d == NewDelivery(s.nextId, req, s.now)
    ensures t.db == Inserted(s.db, d, s.now + cfg.ttl, SubjectOf(cfg, d), ShouldSchedule(d, s.now))
    ensures t.clients == s.clients[c := Answering(Accepted(req.key, s.nextId, false))]
  {
    var s1;
    s1, d := LookupRun(cfg, s, c, req);
    t := CommitRun(cfg, s1, c, d, s.now + cfg.ttl, ShouldSchedule(d, s.now));
    assert t.clients == s.clients[c := Answering(Accepted(req.key, s.nextId, false))];
  }

  /** Replay process `r` writes the delivery back as queued and announces it. */
  lemma ReplayRun(cfg: Config, s: State, r: nat, id: nat) returns (t: State)
    requires Calm(cfg, s) && Replay(s, r).Saving? && Replay(s, r).d.id == id && id in s.db.deliveries
    requires Replay(s, r).d.status == Queued && s.db.deliveries[id].id == id
    ensures Calm(cfg, t)
    ensures t == s.(db := t.db, bus := t.bus, replays := s.replays[r := Off])
    ensures t.db.deliveries.Keys == s.db.deliveries.Keys && HasStatus(t.db, id, Queued) && t.db.deliveries[id].id == id
    ensures t.bus.acked == s.bus.acked && |t.bus.stream| == |s.bus.stream| + 1 && s.bus.stream <= t.bus.stream
    ensures t.bus.stream[|s.bus.stream|].delivery == id
  {
    CalmByReplay(cfg, s, r, Requeue(Applied));
    var s1 := ReplayDoes(cfg, s, r, Requeue(Applied));
    CalmByReplay(cfg, s1, r, Announce(Applied));
    t := ReplayDoes(cfg, s1, r, Announce(Applied));
    assert t.replays == s.replays[r := Off];
  }

  /** One request, published once, rejected by the provider and dead-lettered by worker 0. */
  lemma DeadDelivery(cfg: Config, c: nat) returns (t: State)
    requires Live(cfg) && c in cfg.consumers
    ensures Calm(cfg, t) && t.now == 0
    ensures HasStatus(t.db, 0, Dlq) && t.db.deliveries[0].id == 0
    ensures exists pc: WorkerPc :: t.workers == map[0 := pc] && pc.Closing? && pc.copy == Copy(c, 0)
    ensures t.replays == map[] && |t.bus.stream| == 1 && t.bus.stream[0].delivery == 0 && t.bus.acked == {}
    ensures t.log.sends == [SendEvent(0, 0, false)]
  {
    InitIsCalm(cfg);
    var s1, d := IngestRun(cfg, INIT, 0, REQUEST);
    var s2 := PublishRun(cfg, s1);
    t := RejectRun(cfg, s2, 0, Copy(c, 0), 0);
  }

  // ----- The two counterexamples

  /** Two replays read the same dead delivery before either writes it back. */
  lemma OverlappingReplays(cfg: Config) returns (t: State)
    requires Live(cfg) && !cfg.serialReplays
    ensures Calm(cfg, t) && !AtMostOncePerKey(t)
  {
    var c :| c in cfg.consumers;
    var s1 := DeadDelivery(cfg, c);
    CalmByReplay(cfg, s1, 0, Open(0));
    var s2 := ReplayDoes(cfg, s1, 0, Open(0));
    CalmByReplay(cfg, s2, 1, Open(0));
    var s3 := ReplayDoes(cfg, s2, 1, Open(0));
    var s4 := ReplayAndDeliver(cfg, s3, 1, 1, Copy(c, 1));
    t := ReplayAndDeliver(cfg, s4, 0, 2, Copy(c, 2));
    assert t.log.sends[1] == SendEvent(0, 0, true) && t.log.sends[2] == SendEvent(0, 0, true);
  }

  /** Replay process `r` finishes, and worker `w` has the delivery accepted. */
  lemma ReplayAndDeliver(cfg: Config, s: State, r: nat, w: nat, copy: Copy) returns (t: State)
    requires Calm(cfg, s) && Replay(s, r).Saving? && Replay(s, r).d.id == 0 && 0 in s.db.deliveries
    requires Replay(s, r).d.status == Queued && s.db.deliveries[0].id == 0
    requires Worker(s, w).Free? && copy.consumer in cfg.consumers && copy.msg == |s.bus.stream|
    requires copy !in s.bus.acked && Unheld(s, copy)
    ensures Calm(cfg, t)
    ensures t.replays == s.replays[r := Off] && 0 in t.db.deliveries && t.db.deliveries[0].id == 0 && t.now == s.now
    ensures exists pc: WorkerPc :: t.workers == s.workers[w := pc] && pc.Closing? && pc.copy == copy
    ensures |t.bus.stream| == |s.bus.stream| + 1 && t.bus.acked == s.bus.acked
    ensures t.log.sends == s.log.sends + [SendEvent(0, s.now, true)]
  {
    var s1 := ReplayRun(cfg, s, r, 0);
    t := DeliverRun(cfg, s1, w, copy, 0);
  }

  /** Two schedulers load the same due delivery before either promotes it. */
  lemma LoadedTwice(cfg: Config) returns (t: State)
    requires cfg.batch > 0 && !cfg.oneScheduler
    ensures Calm(cfg, t) && t.now == 1
    ensures 0 in t.db.deliveries && t.db.deliveries[0].id == 0 && t.db.outbox == []
    ensures Scheduler(t, 0) == Scheduler(t, 1) == Promoting(1, [], Stamped(t.db.deliveries[0], Queued, 1))
    ensures t.workers == map[] && t.publishers == map[] && t.replays == map[] && t.schedulers.Keys == {0, 1}
    ensures t.bus == INIT.bus && t.log.sends == []
  {
    InitIsCalm(cfg);
    var s1, d := IngestRun(cfg, INIT, 0, LATER);
    CalmStep(cfg, s1, Tick(1));
    var s2 := LoadRun(cfg, s1.(now := 1), 0);
    t := LoadRun(cfg, s2, 1);
  }

  /** Scheduler 0 writes an accepted delivery back as queued, and worker 1 has it accepted again. */
  lemma LatePromotion(cfg: Config, s: State, copy: Copy) returns (t: State)
    requires Calm(cfg, s) && Scheduler(s, 0).Promoting? && Scheduler(s, 0).d.status == Queued
    requires Scheduler(s, 0).d.id == 0 && 0 in s.db.deliveries && s.db.deliveries[0].id == 0
    requires Worker(s, 1).Free? && Outstanding(cfg, s.bus, copy) && Unheld(s, copy) && s.bus.stream[copy.msg].delivery == 0
    ensures Calm(cfg, t)
    ensures t.log.sends == s.log.sends + [SendEvent(0, s.now, true)]
  {
    CalmByScheduler(cfg, s, 0, Promote(Applied));
    var s1 := SchedulerDoes(cfg, s, 0, Promote(Applied));
    t := DeliverRun(cfg, s1, 1, copy, 0);
  }

  /** The first promotion is published and accepted before the second one is written. */
  lemma TwoSchedulers(cfg: Config) returns (t: State)
    requires Live(cfg) && !cfg.oneScheduler
    ensures Calm(cfg, t) && !AtMostOncePerKey(t)
  {
    var c :| c in cfg.consumers;
    var s1 := LoadedTwice(cfg);
    var s2 := PromoteRun(cfg, s1, 1, 0);
    var s3 := PublishRun(cfg, s2);
    var s4 := DeliverRun(cfg, s3, 0, Copy(c, 0), 0);
    CalmByWorker(cfg, s4, 0, Crash);
    var s5 := WorkerDoes(cfg, s4, 0, Crash);
    t := LatePromotion(cfg, s5, Copy(c, 0));
    assert t.log.sends[0] == SendEvent(0, 1, true) && t.log.sends[1] == SendEvent(0, 1, true);
  }

  /** Scheduler `k` fetches the one due row and loads its delivery. */
  lemma LoadRun(cfg: Config, s: State, k: nat) returns (t: State)
    requires cfg.batch > 0 && (cfg.oneScheduler ==> k == 0) && Calm(cfg, s) && Scheduler(s, k).Sleeping?
    requires HasStatus(s.db, 0, Pending) && forall id :: IsDueAt(s.db.scheduled, s.now, id) <==> id == 0
    ensures Calm(cfg, t)
    ensures t == s.(schedulers := s.schedulers[k := Promoting(s.now, [], Stamped(s.db.deliveries[0], Queued, s.now))])
  {
    assert CanFetchDue(cfg, s, [0]);
    CalmByScheduler(cfg, s, k, FetchDue([0]));
    var s1 := s.(schedulers := s.schedulers[k := Scanning(s.now, [0])]);
    assert s1 == SchedulerDoes(cfg, s, k, FetchDue([0]));
    CalmByScheduler(cfg, s1, k, Load(true));
    t := SchedulerDoes(cfg, s1, k, Load(true));
    assert [0 as nat][1..] == [];
    assert t.schedulers == s.schedulers[k := Promoting(s.now, [], Stamped(s.db.deliveries[0], Queued, s.now))];
  }

  /** Scheduler `k` stores the promotion of delivery `x` and puts it in the outbox. */
  lemma PromoteRun(cfg: Config, s: State, k: nat, x: nat) returns (t: State)
    requires Calm(cfg, s) && Scheduler(s, k).Promoting? && x in s.db.deliveries && s.db.deliveries[x].id == x
    requires Scheduler(s, k).d == Stamped(s.db.deliveries[x], Queued, s.now)
    ensures Calm(cfg, t)
    ensures var d := Scheduler(s, k).d;
            t == s.(db := Enqueued(s.db.(deliveries := s.db.deliveries[x := d]), x, SubjectOf(cfg, d)),
                    schedulers := s.schedulers[k := Finishing(Scheduler(s, k).started, Scheduler(s, k).todo, x)])
  {
    var pc := Scheduler(s, k);
    CalmByScheduler(cfg, s, k, Promote(Applied));
    var s1 := SchedulerDoes(cfg, s, k, Promote(Applied));
    CalmByScheduler(cfg, s1, k, Enqueue(Applied));
    t := SchedulerDoes(cfg, s1, k, Enqueue(Applied));
    assert t.schedulers == s.schedulers[k := Finishing(pc.started, pc.todo, x)];
  }

  ghost predicate OneOutboxRowEach(s: State) {
    forall q, r :: 0 <= q < r < |s.db.outbox| ==> s.db.outbox[q].delivery != s.db.outbox[r].delivery
  }

  /** No delivery gets a second outbox row, in any run with crashes, exactly when there is one scheduler. */
  lemma OneOutboxRowExactly(cfg: Config)
    requires Live(cfg)
    ensures (forall s :: Reachable(cfg, s) ==> OneOutboxRowEach(s)) <==> cfg.oneScheduler
  {
    if cfg.oneScheduler {
      forall s | Reachable(cfg, s) ensures OneOutboxRowEach(s) {
        ReachableInv(cfg, s);
      }
    } else {
      var s1 := LoadedTwice(cfg);
      var s2 := PromoteRun(cfg, s1, 1, 0);
      assert Scheduler(s2, 0) == Scheduler(s1, 0);
      var t := PromoteRun(cfg, s2, 0, 0);
      var acts := CalmRun(cfg, t);
      assert t.db.outbox[0].delivery == t.db.outbox[1].delivery == 0;
      assert !OneOutboxRowEach(t);
    }
  }

  /** Effectively-once holds in every run exactly when there is one scheduler and replays do not overlap. */
  lemma EffectivelyOnceExactly(cfg: Config)
    requires Live(cfg)
    ensures (forall s :: Reachable(cfg, s) ==> AtMostOncePerKey(s)) <==> Sound(cfg)
  {
    if Sound(cfg) {
      forall s | Reachable(cfg, s) ensures AtMostOncePerKey(s) {
        EffectivelyOnce(cfg, s);
      }
    } else if !cfg.oneScheduler {
      var t := TwoSchedulers(cfg);
      var acts := CalmRun(cfg, t);
    } else {
      var t := OverlappingReplays(cfg);
      var acts := CalmRun(cfg, t);
    }
  }
}
