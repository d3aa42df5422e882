/**
  The findings of `Endings` do happen. A scheduler that stops before marking its rows
  holds up later deliveries for ever; a copy that is redelivered while a worker still
  handles it takes the last carrier of a delivery away; and so does a second scheduler,
  whose outbox row is taken for published.
*/
module Losses {
  import opened Wrappers
  import opened Sets
  import opened Notification
  import opened Protocol
  import opened Safety
  import opened Carriers
  import opened Progress
  import opened Endings
  import opened Exactness

  // ----- Jams

  /** A name of its own for every number. */
  function Name(k: nat): (r: string)
    ensures |r| == k
  {
    seq(k, _ => 'k')
  }

  function ScheduledFor(k: nat, at: int): Request { Request(Key(Name(k), Email), Normal, Some(at)) }

  /** Deliveries 0 .. n - 1 are pending, those below `m` for time 1, the others for time 2; nothing is processed. */
  ghost predicate Lined(s: State, m: nat, n: nat) {
    && (forall x: nat :: x in s.db.scheduled <==> x < n)
    && (forall x :: x in s.db.scheduled ==> s.db.scheduled[x] == ScheduledRow(if x < m then 1 else 2, false))
    && (forall x: nat :: x < n ==> x in s.db.deliveries && s.db.deliveries[x].id == x)
  }

  ghost predicate LinedUp(s: State, m: nat, n: nat) {
    && Lined(s, m, n) && s.now == 0 && s.nextId == n && s.schedulers == map[]
    && (forall x: nat :: x < n ==> HasStatus(s.db, x, Pending))
    && (forall key :: key in s.db.keys ==> |key.name| < n)
    && (forall c :: c >= n ==> Client(s, c).Away?)
  }

  lemma LineUpOne(cfg: Config, s: State, m: nat, n: nat, at: int) returns (t: State)
    requires Calm(cfg, s) && LinedUp(s, m, n) && at == (if n < m then 1 else 2)
    ensures Calm(cfg, t) && LinedUp(t, m, n + 1)
  {
    var d;
    t, d := IngestRun(cfg, s, n, ScheduledFor(n, at));
    assert d.id == n && d.status == Pending && d.scheduledAt == Some(at);
    forall x: nat | x < n + 1 ensures HasStatus(t.db, x, Pending) {
      if x < n { assert HasStatus(s.db, x, Pending); }
    }
    forall c | c >= n + 1 ensures Client(t, c).Away? { assert Client(s, c).Away?; }
  }

  lemma {:induction false} LineUp(cfg: Config, m: nat, n: nat) returns (t: State)
    ensures Calm(cfg, t) && LinedUp(t, m, n)
  {
    if n == 0 {
      InitIsCalm(cfg);
      t := INIT;
      assert t.db.scheduled == map[] && t.db.deliveries == map[];
    } else {
      var s := LineUp(cfg, m, n - 1);
      t := LineUpOne(cfg, s, m, n - 1, if n - 1 < m then 1 else 2);
    }
  }

  /** The first `k` of the due rows are stuck. */
  ghost predicate StuckUpTo(cfg: Config, s: State, k: nat) {
    && Calm(cfg, s) && Lined(s, cfg.batch, cfg.batch + 1) && s.now == 1 && Scheduler(s, 0).Sleeping?
    && (forall x :: 0 <= x < k ==> Promoted(s, x)) && forall x :: k <= x <= cfg.batch ==> HasStatus(s.db, x, Pending)
  }

  /** The numbers below `n`, starting with `k`. */
  function StartingWith(k: nat, n: nat): (ids: seq<nat>)
    requires k < n
    ensures |ids| == n && ids[0] == k
    ensures forall i :: 0 <= i < n ==> ids[i] < n
  {
    seq(n, i requires 0 <= i < n => if i == 0 then k else if i == k then 0 else i)
  }

  lemma StartingWithIsExact(k: nat, n: nat)
    requires k < n
    ensures var ids := StartingWith(k, n);
            && (forall i, j :: 0 <= i < j < n ==> ids[i] != ids[j])
            && forall x: nat :: x < n ==> x in ids
  {
    var ids := StartingWith(k, n);
    forall x: nat | x < n ensures x in ids {
      assert ids[if x == k then 0 else if x == 0 then k else x] == x;
    }
  }

  /** The scheduler fetches a batch of due rows, and takes up row `k`. */
  lemma TakeUp(cfg: Config, s: State, k: nat) returns (t: State)
    requires StuckUpTo(cfg, s, k) && k < cfg.batch
    ensures Calm(cfg, t)
    ensures t == s.(schedulers := s.schedulers[0 := Promoting(1, StartingWith(k, cfg.batch)[1..], Stamped(s.db.deliveries[k], Queued, 1))])
  {
    var ids := StartingWith(k, cfg.batch);
    StartingWithIsExact(k, cfg.batch);
    assert CanFetchDue(cfg, s, ids);
    CalmByScheduler(cfg, s, 0, FetchDue(ids));
    var s1 := s.(schedulers := s.schedulers[0 := Scanning(1, ids)]);
    assert s1 == SchedulerDoes(cfg, s, 0, FetchDue(ids));
    CalmByScheduler(cfg, s1, 0, Load(true));
    t := SchedulerDoes(cfg, s1, 0, Load(true));
    assert t.schedulers == s.schedulers[0 := Promoting(1, ids[1..], Stamped(s.db.deliveries[k], Queued, 1))];
  }

  /** One crash before MarkProcessed, and one more row is stuck. */
  lemma CrashRound(cfg: Config, s: State, k: nat) returns (t: State)
    requires StuckUpTo(cfg, s, k) && k < cfg.batch
    ensures StuckUpTo(cfg, t, k + 1)
  {
    var s1 := TakeUp(cfg, s, k);
    var s2 := PromoteRun(cfg, s1, 0, k);
    CalmByScheduler(cfg, s2, 0, Restart);
    t := SchedulerDoes(cfg, s2, 0, Restart);
    assert t.db.scheduled == s.db.scheduled;
    forall x | 0 <= x < k + 1 ensures Promoted(t, x) {
      if x < k { assert Promoted(s, x); }
    }
    forall x | k + 1 <= x <= cfg.batch ensures HasStatus(t.db, x, Pending) { assert HasStatus(s.db, x, Pending); }
  }

  lemma {:induction false} CrashRounds(cfg: Config, k: nat) returns (t: State)
    requires k <= cfg.batch
    ensures StuckUpTo(cfg, t, k)
  {
    if k == 0 {
      var s := LineUp(cfg, cfg.batch, cfg.batch + 1);
      CalmStep(cfg, s, Tick(1));
      t := s.(now := 1);
    } else {
      var s := CrashRounds(cfg, k - 1);
      t := CrashRound(cfg, s, k - 1);
    }
  }

  /**
    A jam is reachable whatever the size of a batch: that many scheduler crashes before MarkProcessed hold
    up the next delivery for ever. No delivery is stranded on the way.
  */
  lemma JamHappens(cfg: Config) returns (t: State)
    requires cfg.batch > 0
    ensures Calm(cfg, t) && Jammed(cfg, t, cfg.batch, Below(cfg.batch))
    ensures cfg.oneScheduler ==> !EverFinished(cfg, t, cfg.batch)
  {
    t := CrashRounds(cfg, cfg.batch);
    BelowSize(cfg.batch);
    assert Jammed(cfg, t, cfg.batch, Below(cfg.batch));
    if cfg.oneScheduler {
      var acts := CalmRun(cfg, t);
      JammedIsNeverFinished(cfg, t, cfg.batch, Below(cfg.batch));
    }
  }

  // ----- Redelivery while a worker still handles the message

  /** Worker `c + 1` serves consumer `c`. */
  function Watcher(c: nat): nat { c + 1 }

  function FirstCopies(cs: set<nat>): set<Copy> {
    set c | c in cs :: Copy(c, 0)
  }

  /** One queued delivery, its only message untouched by the watchers of `cs`. */
  ghost predicate Announced0(cfg: Config, s: State) {
    && Calm(cfg, s) && !cfg.exclusiveHold
    && |s.bus.stream| == 1 && s.bus.stream[0].delivery == 0 && s.bus.acked == {}
    && HasStatus(s.db, 0, Queued) && s.db.deliveries[0].id == 0
  }

  /** The watcher of `c` takes its copy and loads the queued delivery. */
  lemma WatchOne(cfg: Config, s: State, c: nat) returns (t: State)
    requires Announced0(cfg, s) && c in cfg.consumers && Worker(s, Watcher(c)).Free?
    ensures Announced0(cfg, t)
    ensures t == s.(workers := s.workers[Watcher(c) := Claiming(Copy(c, 0), Stamped(s.db.deliveries[0], Processing, s.now), Queued)])
  {
    var w := Watcher(c);
    CalmByWorker(cfg, s, w, Pull(Copy(c, 0)));
    var s1 := WorkerDoes(cfg, s, w, Pull(Copy(c, 0)));
    CalmByWorker(cfg, s1, w, Find(true));
    t := WorkerDoes(cfg, s1, w, Find(true));
    assert t.workers == s.workers[w := Claiming(Copy(c, 0), Stamped(s.db.deliveries[0], Processing, s.now), Queued)];
  }

  /** The watchers of `cs` have all loaded the queued delivery. */
  lemma {:induction false} WatchRun(cfg: Config, s: State, cs: set<nat>) returns (t: State)
    requires Announced0(cfg, s) && cs <= cfg.consumers
    requires forall c :: c in cs ==> Worker(s, Watcher(c)).Free?
    ensures Announced0(cfg, t) && t == s.(workers := t.workers)
    ensures forall c :: c in cs ==>
              Worker(t, Watcher(c)) == Claiming(Copy(c, 0), Stamped(s.db.deliveries[0], Processing, s.now), Queued)
    ensures forall w :: (forall c :: c in cs ==> w != Watcher(c)) ==> Worker(t, w) == Worker(s, w)
  {
    if cs == {} {
      t := s;
    } else {
      var c :| c in cs;
      var s1 := WatchRun(cfg, s, cs - {c});
      t := WatchOne(cfg, s1, c);
    }
  }

  /** The watcher of `c` loses the competition for the delivery, and acknowledges its copy. */
  lemma DismissOne(cfg: Config, s: State, c: nat, d: Row) returns (t: State)
    requires Calm(cfg, s) && d.id == 0 && HasStatus(s.db, 0, Processing)
    requires Worker(s, Watcher(c)) == Claiming(Copy(c, 0), d, Queued)
    ensures Calm(cfg, t)
    ensures t == s.(bus := s.bus.(acked := s.bus.acked + {Copy(c, 0)}), workers := s.workers[Watcher(c) := Free])
  {
    var w := Watcher(c);
    CalmByWorker(cfg, s, w, Claim(Applied));
    var s1 := WorkerDoes(cfg, s, w, Claim(Applied));
    assert s1 == s.(workers := s.workers[w := Replying(Copy(c, 0), true)]);
    CalmByWorker(cfg, s1, w, Reply);
    t := WorkerDoes(cfg, s1, w, Reply);
    assert t.workers == s.workers[w := Free];
  }

  /** The watchers of `cs` lose the competition for the delivery, and acknowledge their copies. */
  lemma {:induction false} DismissRun(cfg: Config, s: State, cs: set<nat>, d: Row) returns (t: State)
    requires Calm(cfg, s) && d.id == 0 && HasStatus(s.db, 0, Processing)
    requires forall c :: c in cs ==> Worker(s, Watcher(c)) == Claiming(Copy(c, 0), d, Queued)
    ensures Calm(cfg, t) && t == s.(bus := s.bus.(acked := s.bus.acked + FirstCopies(cs)), workers := t.workers)
    ensures forall c :: c in cs ==> Worker(t, Watcher(c)).Free?
    ensures forall w :: (forall c :: c in cs ==> w != Watcher(c)) ==> Worker(t, w) == Worker(s, w)
  {
    if cs == {} {
      t := s;
      assert s.bus.acked + FirstCopies(cs) == s.bus.acked;
    } else {
      var c :| c in cs;
      var s1 := DismissRun(cfg, s, cs - {c}, d);
      t := DismissOne(cfg, s1, c, d);
      assert s.bus.acked + FirstCopies(cs) == s.bus.acked + FirstCopies(cs - {c}) + {Copy(c, 0)};
    }
  }

  /** All consumers load the queued delivery, worker 0 too, and worker 0 wins: every copy is acknowledged while it owns it. */
  lemma LoneOwner(cfg: Config, s: State, c: nat) returns (t: State)
    requires Announced0(cfg, s) && c in cfg.consumers && s.workers == map[]
    requires s.db.deliveries[0].retryCount == 0
    ensures Calm(cfg, t) && 0 in t.db.deliveries && t.db.outbox == s.db.outbox
    ensures t == s.(db := t.db, bus := s.bus.(acked := FirstCopies(cfg.consumers)), workers := t.workers)
    ensures var pc := Worker(t, 0); pc.Owning? && pc.stage == Gating && pc.d.id == 0 && pc.d.retryCount == 0
    ensures forall w :: w != 0 ==> Worker(t, w).Free?
  {
    var s1 := WatchRun(cfg, s, cfg.consumers);
    assert Worker(s1, 0) == Worker(s, 0);
    var s2 := ClaimRun(cfg, s1, 0, Copy(c, 0), 0);
    assert Worker(s2, 0).Owning?;
    t := DismissRun(cfg, s2, cfg.consumers, Stamped(s.db.deliveries[0], Processing, s.now));
    assert Worker(t, 0) == Worker(s2, 0);
    assert {} + FirstCopies(cfg.consumers) == FirstCopies(cfg.consumers);
    forall w | w != 0 ensures Worker(t, w).Free? {
      if c :| c in cfg.consumers && w == Watcher(c) {
        assert Worker(t, Watcher(c)).Free?;
      } else {
        assert Worker(s1, w) == Worker(s, w) && Worker(t, w) == Worker(s2, w);
      }
    }
  }

  lemma RetryRun(cfg: Config, s: State) returns (t: State)
    requires Calm(cfg, s) && Worker(s, 0).Owning? && Worker(s, 0).stage == Gating && cfg.maxAttempts >= 2
    requires Worker(s, 0).d.id == 0 && Worker(s, 0).d.retryCount == 0 && 0 in s.db.deliveries
    ensures Calm(cfg, t) && t == s.(db := t.db, workers := s.workers[0 := Worker(t, 0)], log := t.log)
    ensures HasStatus(t.db, 0, Retrying) && t.db.outbox == s.db.outbox && Worker(t, 0).Closing?
  {
    var s1 := SendRun(cfg, s, 0, TransientError("unavailable"));
    CalmByWorker(cfg, s1, 0, Save(Applied));
    t := WorkerDoes(cfg, s1, 0, Save(Applied));
    assert t.workers == s.workers[0 := Worker(t, 0)];
  }

  /** One request, published, marked and untouched by any worker. */
  lemma AnnounceRun(cfg: Config) returns (t: State)
    requires Live(cfg) && !cfg.exclusiveHold
    ensures Announced0(cfg, t) && t.workers == map[] && t.replays == map[] && t.schedulers == map[]
    ensures forall p :: Publisher(t, p).Waiting?
    ensures |t.db.outbox| == 1 && t.db.outbox[0].published && t.db.deliveries[0].retryCount == 0
  {
    InitIsCalm(cfg);
    var s1, d := IngestRun(cfg, INIT, 0, REQUEST);
    var s2 := PublishRun(cfg, s1);
    t := MarkRun(cfg, s2);
  }

  /**
    If a copy may be redelivered while a worker still handles it, a delivery can be lost in a run without a
    stranding failure: the worker that the redelivered copy reaches finds the delivery taken and acknowledges
    the copy, and the owner then stores it for a retry that nobody will ever make.
  */
  lemma LostWithoutExclusiveHold(cfg: Config) returns (t: State)
    requires Live(cfg) && !cfg.exclusiveHold && cfg.maxAttempts >= 2
    ensures Calm(cfg, t) && HasStatus(t.db, 0, Retrying) && !Carried(cfg, t, 0) && !EverFinished(cfg, t, 0)
  {
    var c :| c in cfg.consumers;
    var s1 := AnnounceRun(cfg);
    var s2 := LoneOwner(cfg, s1, c);
    t := RetryRun(cfg, s2);
    forall b ensures !CopyOf(cfg, t, 0, b) {
      if IsCopy(cfg, t.bus, b) { assert b == Copy(b.consumer, 0) && b in t.bus.acked; }
    }
    forall p ensures Publisher(t, p).Waiting? { assert Publisher(s1, p).Waiting?; }
    forall w | w != 0 ensures Worker(t, w).Free? { assert Worker(s2, w).Free?; }
    NothingMoves(cfg, t, Retrying);
    StalledIsLost(cfg, t);
  }

  /** Nothing in the system knows of delivery 0 but its row. */
  lemma NothingMoves(cfg: Config, s: State, status: Status)
    requires s.replays == map[] && !BeingEnqueued(s, 0) && forall p :: Publisher(s, p).Waiting?
    requires forall r :: 0 <= r < |s.db.outbox| ==> s.db.outbox[r].published
    requires forall b :: !CopyOf(cfg, s, 0, b)
    requires forall w :: Worker(s, w).Free? || Worker(s, w).Closing?
    ensures !Movable(cfg, s, 0, status)
  {
    forall w | w in s.workers ensures !Contends(s, s.workers[w], 0, status) {
      assert Worker(s, w).Free? || Worker(s, w).Closing?;
    }
    forall p | p in s.publishers ensures !Publishes(s, s.publishers[p], 0) {
      assert Publisher(s, p).Waiting?;
    }
  }

  lemma StalledIsLost(cfg: Config, s: State)
    requires Calm(cfg, s) && Stalled(cfg, s, 0)
    ensures !Carried(cfg, s, 0) && !EverFinished(cfg, s, 0)
  {
    var acts := CalmRun(cfg, s);
    StalledIsNeverFinished(cfg, s, 0);
    if HasSafeCopy(cfg, s, 0) { SafeCopyIsCopy(cfg, s, 0); }
    if HasOpenRow(s, 0) {
      var r :| OpenRow(s, 0, r);
      assert PendingRow(s, 0, r);
    }
  }

  // ----- A second scheduler

  /** Delivery 0 has succeeded and has one message; no worker is busy. */
  ghost predicate Succeeded0(cfg: Config, s: State) {
    && Calm(cfg, s) && HasStatus(s.db, 0, Succeeded) && s.db.deliveries[0].id == 0
    && |s.bus.stream| == 1 && s.bus.stream[0].delivery == 0 && forall w :: Worker(s, w).Free?
  }

  /** Worker 0 finds that the delivery has succeeded, and acknowledges the copy of consumer `c`. */
  lemma AckOne(cfg: Config, s: State, c: nat) returns (t: State)
    requires Succeeded0(cfg, s) && c in cfg.consumers && Copy(c, 0) !in s.bus.acked
    ensures Succeeded0(cfg, t)
    ensures t == s.(bus := s.bus.(acked := s.bus.acked + {Copy(c, 0)}), workers := s.workers[0 := Free])
  {
    forall v | v in s.workers ensures s.workers[v].Free? { assert Worker(s, v).Free?; }
    CalmByWorker(cfg, s, 0, Pull(Copy(c, 0)));
    var s1 := WorkerDoes(cfg, s, 0, Pull(Copy(c, 0)));
    CalmByWorker(cfg, s1, 0, Find(true));
    var s2 := WorkerDoes(cfg, s1, 0, Find(true));
    CalmByWorker(cfg, s2, 0, Reply);
    t := WorkerDoes(cfg, s2, 0, Reply);
    assert t.workers == s.workers[0 := Free];
    forall w ensures Worker(t, w).Free? { assert Worker(s, w).Free?; }
  }

  lemma {:induction false} AckRun(cfg: Config, s: State, cs: set<nat>) returns (t: State)
    requires Succeeded0(cfg, s) && s.bus.acked == {} && cs <= cfg.consumers
    ensures Succeeded0(cfg, t) && t == s.(bus := s.bus.(acked := FirstCopies(cs)), workers := t.workers)
  {
    if cs == {} {
      t := s;
      assert FirstCopies(cs) == {};
    } else {
      var c :| c in cs;
      var s1 := AckRun(cfg, s, cs - {c});
      t := AckOne(cfg, s1, c);
      assert FirstCopies(cs) == FirstCopies(cs - {c}) + {Copy(c, 0)};
    }
  }

  /** Two schedulers have loaded the pending delivery; one has promoted it, it has been delivered, and all know. */
  lemma PromotedAndDelivered(cfg: Config) returns (t: State)
    requires Live(cfg) && !cfg.oneScheduler
    ensures Succeeded0(cfg, t) && t.bus.acked == FirstCopies(cfg.consumers) && |t.db.outbox| == 1 && t.db.outbox[0].published
    ensures t.replays == map[] && t.db.outbox[0].delivery == 0 && forall p :: Publisher(t, p).Waiting?
    ensures forall k :: k in t.schedulers && k != 0 ==> t.schedulers[k].Finishing?
    ensures Scheduler(t, 0).Promoting? && Scheduler(t, 0).d.id == 0 && Scheduler(t, 0).d.status == Queued
  {
    var c :| c in cfg.consumers;
    var s1 := LoadedTwice(cfg);
    var s2 := PromoteRun(cfg, s1, 1, 0);
    var s3 := PublishRun(cfg, s2);
    var s4 := MarkRun(cfg, s3);
    var s5 := DeliverRun(cfg, s4, 0, Copy(c, 0), 0);
    CalmByWorker(cfg, s5, 0, Crash);
    var s6 := WorkerDoes(cfg, s5, 0, Crash);
    t := AckRun(cfg, s6, cfg.consumers);
  }

  /** The other scheduler queues the delivery again and puts it in the outbox, and the publisher takes it for published. */
  lemma PromotedAgain(cfg: Config, s: State) returns (t: State)
    requires Calm(cfg, s) && cfg.batch > 0 && 0 in s.db.deliveries && Publisher(s, 0).Waiting?
    requires Scheduler(s, 0).Promoting? && Scheduler(s, 0).d.id == 0 && Scheduler(s, 0).d.status == Queued
    requires |s.db.outbox| == 1 && s.db.outbox[0].published && s.db.outbox[0].delivery == 0
    ensures Calm(cfg, t) && t == s.(db := t.db, schedulers := t.schedulers, publishers := s.publishers[0 := Waiting])
    ensures HasStatus(t.db, 0, Queued) && forall r :: 0 <= r < |t.db.outbox| ==> t.db.outbox[r].published
    ensures Scheduler(t, 0).Finishing? && t.schedulers == s.schedulers[0 := Scheduler(t, 0)]
  {
    CalmByScheduler(cfg, s, 0, Promote(Applied));
    var s1 := SchedulerDoes(cfg, s, 0, Promote(Applied));
    CalmByScheduler(cfg, s1, 0, Enqueue(Applied));
    var s2 := SchedulerDoes(cfg, s1, 0, Enqueue(Applied));
    t := MarkWithoutPublish(cfg, s2);
    assert t.schedulers == s.schedulers[0 := Scheduler(t, 0)];
  }

  lemma MarkWithoutPublish(cfg: Config, s: State) returns (t: State)
    requires Calm(cfg, s) && cfg.batch > 0 && Publisher(s, 0).Waiting?
    requires |s.db.outbox| == 2 && s.db.outbox[0].published && !s.db.outbox[1].published
    requires s.db.outbox[0].delivery == s.db.outbox[1].delivery
    ensures Calm(cfg, t) && t == s.(db := WithPublished(s.db, 1), publishers := s.publishers[0 := Waiting])
  {
    CalmByPublisher(cfg, s, 0, Fetch);
    var s1 := PublisherDoes(cfg, s, 0, Fetch);
    assert Oldest(s.db.outbox, 2, cfg.batch - 1) == [] && Oldest(s.db.outbox, 1, cfg.batch) == [1];
    assert s1.publishers[0] == Flushing([1]);
    CalmByPublisher(cfg, s1, 0, Check(true));
    var s2 := PublisherDoes(cfg, s1, 0, Check(true));
    assert [1 as nat][1..] == [] && s2.publishers[0] == Marking(1, []);
    CalmByPublisher(cfg, s2, 0, Mark(Applied));
    var s3 := PublisherDoes(cfg, s2, 0, Mark(Applied));
    CalmByPublisher(cfg, s3, 0, EndFlush);
    t := PublisherDoes(cfg, s3, 0, EndFlush);
    assert t.publishers == s.publishers[0 := Waiting];
  }

  /**
    With two schedulers a delivery can be lost in a run without a stranding failure: the late promotion takes
    it from succeeded back to queued, and its second outbox row is marked without a message.
  */
  lemma LostToSecondScheduler(cfg: Config) returns (t: State)
    requires Live(cfg) && !cfg.oneScheduler
    ensures Calm(cfg, t) && HasStatus(t.db, 0, Queued) && !Carried(cfg, t, 0) && !EverFinished(cfg, t, 0)
  {
    var s := PromotedAndDelivered(cfg);
    t := PromotedAgain(cfg, s);
    forall b ensures !CopyOf(cfg, t, 0, b) {
      if IsCopy(cfg, t.bus, b) { assert b == Copy(b.consumer, 0) && b in t.bus.acked; }
    }
    forall p ensures Publisher(t, p).Waiting? { assert Publisher(s, p).Waiting?; }
    forall w ensures Worker(t, w).Free? { assert Worker(s, w).Free?; }
    NothingMoves(cfg, t, Queued);
    StalledIsLost(cfg, t);
  }

  // ----- The exact condition

  /**
    Work is never lost, in runs without stranding failures, exactly when there is one scheduler and either copies
    are held by one worker at a time or nothing is ever retried: exactly then every delivery has a carrier, and,
    pending ones apart, can still be finished. Overlapping replays lose nothing.
  */
  lemma NoWorkIsLostExactly(cfg: Config)
    requires Live(cfg)
    ensures (forall s, id :: ReachedUnstranded(cfg, s) ==> Carried(cfg, s, id)) <==>
            cfg.oneScheduler && (cfg.exclusiveHold || cfg.maxAttempts <= 1)
    ensures (forall s, id :: ReachedUnstranded(cfg, s) && id in s.db.deliveries && s.db.deliveries[id].status != Pending ==>
               Finishable(cfg, s, id)) <==>
            cfg.oneScheduler && (cfg.exclusiveHold || cfg.maxAttempts <= 1)
  {
    if Holding(cfg) {
      forall s, id | ReachedUnstranded(cfg, s)
        ensures Carried(cfg, s, id)
        ensures id in s.db.deliveries && s.db.deliveries[id].status != Pending ==> Finishable(cfg, s, id)
      {
        var acts :| RunFrom(cfg, INIT, acts) == Some(s) && Unstranded(cfg, INIT, acts);
        NoWorkIsLost(cfg, acts, id);
        if id in s.db.deliveries { FinishableUnlessJammed(cfg, acts, id); }
      }
    } else {
      var t;
      if cfg.oneScheduler { t := LostWithoutExclusiveHold(cfg); } else { t := LostToSecondScheduler(cfg); }
      var acts := CalmRun(cfg, t);
      assert ReachedUnstranded(cfg, t);
      if Finishable(cfg, t, 0) { SmoothIsARun(cfg, t, 0); }
    }
  }
}
