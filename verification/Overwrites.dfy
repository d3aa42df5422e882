/**
  The exclusive parts of the invariant hold exactly in sound deployments. In any other one
  a second scheduler or a second replay comes late with a write that takes a delivery back
  to queued, whoever owns it and whatever its status is by then.
*/
module Overwrites {
  import opened Notification
  import opened Protocol
  import opened Safety
  import opened Guarantees
  import opened Carriers
  import opened Exactness

  /** The action is a promotion or a replay that will write delivery 0 back as queued. */
  predicate Late(s: State, a: Action) {
    || (a == ByScheduler(0, Promote(Applied)) && Scheduler(s, 0).Promoting?
        && Scheduler(s, 0).d.id == 0 && Scheduler(s, 0).d.status == Queued)
    || (a == ByReplay(0, Requeue(Applied)) && Replay(s, 0).Saving?
        && Replay(s, 0).d.id == 0 && Replay(s, 0).d.status == Queued)
  }

  lemma LateWrite(cfg: Config, s: State, a: Action)
    requires Calm(cfg, s) && Late(s, a) && 0 in s.db.deliveries
    ensures Enabled(cfg, s, a) && Calm(cfg, Apply(cfg, s, a)) && !a.ByWorker?
    ensures var t := Apply(cfg, s, a);
            && HasStatus(t.db, 0, Queued) && t.db.deliveries[0].id == s.db.deliveries[0].id
            && t.workers == s.workers && t.bus == s.bus
  {
    CalmStep(cfg, s, a);
  }

  /** Delivery 0 is queued, two copies of its messages wait for consumer `c`, no worker is busy, and a late write is to come. */
  ghost predicate Overtaken(cfg: Config, s: State, a: Action, c: nat) {
    && Calm(cfg, s) && Late(s, a) && c in cfg.consumers
    && HasStatus(s.db, 0, Queued) && s.db.deliveries[0].id == 0 && (forall w :: Worker(s, w).Free?)
    && |s.bus.stream| == 2 && s.bus.acked == {} && s.bus.stream[0].delivery == s.bus.stream[1].delivery == 0
  }

  lemma OvertakenScheduler(cfg: Config, c: nat) returns (s: State)
    requires Live(cfg) && !cfg.oneScheduler && c in cfg.consumers
    ensures Overtaken(cfg, s, ByScheduler(0, Promote(Applied)), c)
  {
    var s1 := LoadedTwice(cfg);
    var s2 := PromoteRun(cfg, s1, 1, 0);
    var s3 := FetchRun(cfg, s2);
    var s4 := PublishUnmarked(cfg, s3);
    s := PublishRun(cfg, s4);
  }

  lemma OvertakenReplay(cfg: Config, c: nat) returns (s: State)
    requires Live(cfg) && !cfg.serialReplays && c in cfg.consumers
    ensures Overtaken(cfg, s, ByReplay(0, Requeue(Applied)), c)
  {
    var s1 := DeadDelivery(cfg, c);
    CalmByWorker(cfg, s1, 0, Crash);
    var s2 := WorkerDoes(cfg, s1, 0, Crash);
    CalmByReplay(cfg, s2, 0, Open(0));
    var s3 := ReplayDoes(cfg, s2, 0, Open(0));
    CalmByReplay(cfg, s3, 1, Open(0));
    var s4 := ReplayDoes(cfg, s3, 1, Open(0));
    s := ReplayRun(cfg, s4, 1, 0);
  }

  lemma OvertakenRun(cfg: Config) returns (s: State, a: Action, c: nat)
    requires Live(cfg) && !Sound(cfg)
    ensures Overtaken(cfg, s, a, c)
  {
    c :| c in cfg.consumers;
    if cfg.oneScheduler {
      a := ByReplay(0, Requeue(Applied));
      s := OvertakenReplay(cfg, c);
    } else {
      a := ByScheduler(0, Promote(Applied));
      s := OvertakenScheduler(cfg, c);
    }
  }

  /** Worker 0 has had the delivery accepted and is about to store that; the second copy is untouched. */
  ghost predicate Accepted0(cfg: Config, s: State, a: Action, copy: Copy) {
    && Calm(cfg, s) && Late(s, a) && Outstanding(cfg, s.bus, copy) && s.bus.stream[copy.msg].delivery == 0
    && HasStatus(s.db, 0, Processing) && s.db.deliveries[0].id == 0
    && Owns(Worker(s, 0), 0) && Worker(s, 0).stage == SavingSuccess && Worker(s, 0).copy != copy
    && Worker(s, 0).d.status == Succeeded && Worker(s, 0).base.status == Processing
    && forall w :: w != 0 ==> Worker(s, w).Free?
  }

  lemma AcceptedRun(cfg: Config) returns (s: State, a: Action, copy: Copy)
    requires Live(cfg) && !Sound(cfg)
    ensures Accepted0(cfg, s, a, copy)
  {
    var s1, c;
    s1, a, c := OvertakenRun(cfg);
    forall v | v in s1.workers ensures s1.workers[v].Free? { assert Worker(s1, v).Free?; }
    var s2 := ClaimRun(cfg, s1, 0, Copy(c, 0), 0);
    s := SendRun(cfg, s2, 0, Delivered);
    copy := Copy(c, 1);
    forall w | w != 0 ensures Worker(s, w).Free? { assert Worker(s1, w).Free?; }
  }

  /** The late write comes while worker 0 owns the delivery, and worker 1 claims it as well. */
  lemma SecondOwner(cfg: Config, s: State, a: Action, copy: Copy) returns (t: State)
    requires Accepted0(cfg, s, a, copy)
    ensures Calm(cfg, t) && Owns(Worker(t, 0), 0) && Owns(Worker(t, 1), 0)
  {
    LateWrite(cfg, s, a);
    var s1 := Apply(cfg, s, a);
    forall v | v in s1.workers && !s1.workers[v].Free? ensures s1.workers[v].copy != copy {
      assert v == 0 || Worker(s, v).Free?;
    }
    assert Worker(s1, 1) == Worker(s, 1);
    t := ClaimRun(cfg, s1, 1, copy, 0);
  }

  /** The final write finds the row as the worker's claim wrote it. */
  predicate FindsOwnClaim(s: State, w: nat) {
    var pc := Worker(s, w);
    AtSave(pc) ==> pc.d.id in s.db.deliveries && s.db.deliveries[pc.d.id] == pc.base && pc.base.status == Processing
  }

  predicate SameRow(s: State, t: State, id: nat) {
    id in s.db.deliveries && id in t.db.deliveries && t.db.deliveries[id] == s.db.deliveries[id]
  }

  /** The rows that other processes own come out of the step as they were. */
  ghost predicate SparesOwned(cfg: Config, s: State, a: Action)
    requires Enabled(cfg, s, a)
  {
    forall w, id :: Owns(Worker(s, w), id) && !(a.ByWorker? && a.w == w) ==> SameRow(s, Apply(cfg, s, a), id)
  }

  predicate AlongAnEdge(s: State, t: State, id: nat) {
    id in s.db.deliveries ==>
      && id in t.db.deliveries
      && (t.db.deliveries[id].status != s.db.deliveries[id].status ==> Edge(s.db.deliveries[id].status, t.db.deliveries[id].status))
  }

  /** No two workers own one delivery, in all runs, exactly in sound deployments. */
  lemma OwnersAreExclusiveExactly(cfg: Config)
    requires Live(cfg)
    ensures (forall s, v, w, id :: Reachable(cfg, s) && Owns(Worker(s, v), id) && Owns(Worker(s, w), id) ==> v == w) <==> Sound(cfg)
  {
    if Sound(cfg) {
      forall s, v, w, id | Reachable(cfg, s) && Owns(Worker(s, v), id) && Owns(Worker(s, w), id) ensures v == w {
        OwnersAreExclusive(cfg, s, v, w, id);
      }
    } else {
      var s, a, copy := AcceptedRun(cfg);
      var t := SecondOwner(cfg, s, a, copy);
      var acts := CalmRun(cfg, t);
    }
  }

  /** Every final write finds the row of its own claim, in all runs, exactly in sound deployments. */
  lemma FinalWritesExactly(cfg: Config)
    requires Live(cfg)
    ensures (forall s, w :: Reachable(cfg, s) ==> FindsOwnClaim(s, w)) <==> Sound(cfg)
  {
    if Sound(cfg) {
      forall s, w | Reachable(cfg, s) ensures FindsOwnClaim(s, w) {
        if AtSave(Worker(s, w)) { FinalWriteFindsOwnClaim(cfg, s, w); }
      }
    } else {
      var s, a, copy := AcceptedRun(cfg);
      LateWrite(cfg, s, a);
      var t := Apply(cfg, s, a);
      var acts := CalmRun(cfg, t);
      assert !FindsOwnClaim(t, 0);
    }
  }

  /** No process changes a row that another one owns, in all runs, exactly in sound deployments. */
  lemma OwnedRowsAreStableExactly(cfg: Config)
    requires Live(cfg)
    ensures (forall s, a :: Reachable(cfg, s) && Enabled(cfg, s, a) ==> SparesOwned(cfg, s, a)) <==> Sound(cfg)
  {
    if Sound(cfg) {
      forall s, a | Reachable(cfg, s) && Enabled(cfg, s, a) ensures SparesOwned(cfg, s, a) {
        forall w, id | Owns(Worker(s, w), id) && !(a.ByWorker? && a.w == w) ensures SameRow(s, Apply(cfg, s, a), id) {
          OwnedRowIsStable(cfg, s, a, w, id);
        }
      }
    } else {
      var s, a, copy := AcceptedRun(cfg);
      LateWrite(cfg, s, a);
      var acts := CalmRun(cfg, s);
      assert Owns(Worker(s, 0), 0) && !SameRow(s, Apply(cfg, s, a), 0);
    }
  }

  /** Every stored status change is an edge of the status machine, in all runs, exactly in sound deployments. */
  lemma EdgesExactly(cfg: Config)
    requires Live(cfg)
    ensures (forall s, a, id :: Reachable(cfg, s) && Enabled(cfg, s, a) ==> AlongAnEdge(s, Apply(cfg, s, a), id)) <==> Sound(cfg)
  {
    if Sound(cfg) {
      forall s, a, id | Reachable(cfg, s) && Enabled(cfg, s, a) ensures AlongAnEdge(s, Apply(cfg, s, a), id) {
        if id in s.db.deliveries { StatusChangesAreEdges(cfg, s, a, id); }
      }
    } else {
      var s, a, copy := AcceptedRun(cfg);
      LateWrite(cfg, s, a);
      var acts := CalmRun(cfg, s);
      assert !AlongAnEdge(s, Apply(cfg, s, a), 0);
    }
  }

  /** A succeeded row stays as it is in every continuation, in all runs, exactly in sound deployments. */
  lemma SucceededForeverExactly(cfg: Config)
    requires Live(cfg)
    ensures (forall s, acts, id :: Reachable(cfg, s) && HasStatus(s.db, id, Succeeded) && RunFrom(cfg, s, acts).Some? ==>
               SameRow(s, RunFrom(cfg, s, acts).value, id)) <==> Sound(cfg)
  {
    if Sound(cfg) {
      forall s, acts, id | Reachable(cfg, s) && HasStatus(s.db, id, Succeeded) && RunFrom(cfg, s, acts).Some?
        ensures SameRow(s, RunFrom(cfg, s, acts).value, id)
      {
        SucceededForever(cfg, s, acts, id);
      }
    } else {
      var s, a, copy := AcceptedRun(cfg);
      CalmByWorker(cfg, s, 0, Save(Applied));
      var t := WorkerDoes(cfg, s, 0, Save(Applied));
      var before := CalmRun(cfg, t);
      assert HasStatus(t.db, 0, Succeeded) && Late(t, a);
      LateWrite(cfg, t, a);
      RunSnoc(cfg, t, [], t, a);
      assert !SameRow(t, RunFrom(cfg, t, [] + [a]).value, 0);
    }
  }
}
