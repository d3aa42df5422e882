/**
  Stale retry counts. The compare-and-swap looks at the status alone, so with two workers
  it can take a delivery back to a retry count that it had when a worker loaded it. It
  never does with a retry limit of two or less, and in every deployment it can with a larger
  one: that limit is where the bound on dispatches stops to hold for more than one worker.
*/
module Staleness {
  import opened Wrappers
  import opened Notification
  import opened Protocol
  import opened Frames
  import opened Safety
  import opened Guarantees
  import opened Carriers
  import opened Exactness
  import opened Retries

  // ----- What a status says about the retry count, in any deployment

  predicate CountFits(status: Status, retryCount: int) {
    match status
    case Pending | Queued => retryCount == 0
    case Retrying => retryCount >= 1
    case _ => true
  }

  ghost predicate CountsInv(s: State) {
    && (forall id :: id in s.db.deliveries ==> CountFits(s.db.deliveries[id].status, s.db.deliveries[id].retryCount))
    && (forall w :: w in s.workers && s.workers[w].Claiming? ==> CountFits(s.workers[w].prev, s.workers[w].d.retryCount))
    && (forall k :: k in s.schedulers && (s.schedulers[k].Promoting?) ==> s.schedulers[k].d.retryCount == 0)
  }

  lemma ClientKeepsCounts(cfg: Config, s: State, c: nat, op: ClientOp)
    requires CountsInv(s) && ClientOk(cfg, s, Client(s, c)) && ClientCan(s, c, op)
    ensures CountsInv(ClientDoes(cfg, s, c, op))
  {
  }

  lemma SchedulerKeepsCounts(cfg: Config, s: State, k: nat, op: SchedulerOp)
    requires CountsInv(s) && SchedulerOk(cfg, s, Scheduler(s, k)) && SchedulerCan(cfg, s, k, op)
    ensures CountsInv(SchedulerDoes(cfg, s, k, op))
  {
  }

  lemma WorkerKeepsCounts(cfg: Config, s: State, w: nat, op: WorkerOp)
    requires CountsInv(s) && WorkerOk(cfg, s, Worker(s, w)) && WorkerCan(cfg, s, w, op)
    ensures CountsInv(WorkerDoes(cfg, s, w, op))
  {
  }

  lemma ReplayKeepsCounts(cfg: Config, s: State, r: nat, op: ReplayOp)
    requires CountsInv(s) && ReplayOk(cfg, s, Replay(s, r)) && ReplayCan(cfg, s, r, op)
    ensures CountsInv(ReplayDoes(cfg, s, r, op))
  {
  }

  lemma PublisherKeepsCounts(cfg: Config, s: State, p: nat, op: PublisherOp)
    requires CountsInv(s) && PublisherCan(s, p, op)
    ensures CountsInv(PublisherDoes(cfg, s, p, op))
  {
    PublisherFrame(cfg, s, p, op);
  }

  lemma StepKeepsCounts(cfg: Config, s: State, a: Action)
    requires Inv(cfg, s) && CountsInv(s) && Enabled(cfg, s, a)
    ensures CountsInv(Apply(cfg, s, a))
  {
    ProcessesAt(cfg, s);
    match a
    case ByClient(c, op) => ClientKeepsCounts(cfg, s, c, op);
    case ByPublisher(p, op) => PublisherKeepsCounts(cfg, s, p, op);
    case ByScheduler(k, op) => SchedulerKeepsCounts(cfg, s, k, op);
    case ByWorker(w, op) => WorkerKeepsCounts(cfg, s, w, op);
    case ByReplay(r, op) => ReplayKeepsCounts(cfg, s, r, op);
    case _ =>
  }

  lemma {:induction false} RunKeepsCounts(cfg: Config, acts: seq<Action>)
    requires RunFrom(cfg, INIT, acts).Some?
    ensures Inv(cfg, RunFrom(cfg, INIT, acts).value) && CountsInv(RunFrom(cfg, INIT, acts).value)
  {
    if acts == [] {
      InitInv(cfg);
    } else {
      var before, a := acts[..|acts| - 1], acts[|acts| - 1];
      RunKeepsCounts(cfg, before);
      StepKeepsInv(cfg, RunFrom(cfg, INIT, before).value, a);
      StepKeepsCounts(cfg, RunFrom(cfg, INIT, before).value, a);
    }
  }

  // ----- Claims with a limit of two or less

  /** No claim of this state would change the stored retry count. */
  ghost predicate ClaimsKeepCount(s: State) {
    forall w, write: Write :: Worker(s, w).Claiming? ==>
      var d := Worker(s, w).d;
      var t := AfterClaim(s, w, write);
      d.id in s.db.deliveries ==> d.id in t.db.deliveries && t.db.deliveries[d.id].retryCount == s.db.deliveries[d.id].retryCount
  }

  lemma SmallLimitKeepsCount(cfg: Config, s: State)
    requires Reachable(cfg, s) && cfg.maxAttempts <= 2
    ensures ClaimsKeepCount(s)
  {
    var acts :| RunFrom(cfg, INIT, acts) == Some(s);
    RunKeepsCounts(cfg, acts);
    RetryCountBound(cfg, s);
    forall w, write: Write | Worker(s, w).Claiming? && Worker(s, w).d.id in s.db.deliveries
      ensures var d := Worker(s, w).d;
              var t := AfterClaim(s, w, write);
              d.id in t.db.deliveries && t.db.deliveries[d.id].retryCount == s.db.deliveries[d.id].retryCount
    {
      SmallLimitKeepsOne(cfg, s, w, write);
    }
  }

  lemma SmallLimitKeepsOne(cfg: Config, s: State, w: nat, write: Write)
    requires CountsInv(s) && cfg.maxAttempts <= 2 && Worker(s, w).Claiming? && CanStart(Worker(s, w).prev)
    requires Worker(s, w).d.retryCount < RetryLimit(cfg) && Worker(s, w).d.id in s.db.deliveries
    requires s.db.deliveries[Worker(s, w).d.id].retryCount < RetryLimit(cfg)
    ensures var d := Worker(s, w).d;
            var t := AfterClaim(s, w, write);
            d.id in t.db.deliveries && t.db.deliveries[d.id].retryCount == s.db.deliveries[d.id].retryCount
  {
    var pc := Worker(s, w);
    assert CountFits(pc.prev, pc.d.retryCount);
    assert CountFits(s.db.deliveries[pc.d.id].status, s.db.deliveries[pc.d.id].retryCount);
  }

  // ----- Dispatches with a limit of two or less

  /** A delivery in this status and with this count has been claimed at most that often since its last replay. */
  predicate Within(cfg: Config, db: Db, id: nat, claims: int) {
    if id !in db.deliveries then claims == 0
    else
      match db.deliveries[id].status
      case Pending | Queued => claims == 0
      case Retrying => claims <= db.deliveries[id].retryCount
      case Processing => claims <= db.deliveries[id].retryCount + 1
      case _ => claims <= RetryLimit(cfg)
  }

  lemma ClientStaysWithin(cfg: Config, s: State, c: nat, op: ClientOp, id: nat, claims: int)
    requires ClientOk(cfg, s, Client(s, c)) && ClientCan(s, c, op) && Within(cfg, s.db, id, claims)
    ensures Within(cfg, ClientDoes(cfg, s, c, op).db, id, claims)
  {
    if op.Commit? && Client(s, c).d.key !in s.db.keys { CommitStores(cfg, s, c); } else { ClientFrame(cfg, s, c, op); }
  }

  lemma SchedulerStaysWithin(cfg: Config, s: State, k: nat, op: SchedulerOp, id: nat, claims: int)
    requires Sound(cfg) && SchedulerOk(cfg, s, Scheduler(s, k)) && SchedulerCan(cfg, s, k, op) && Within(cfg, s.db, id, claims)
    ensures Within(cfg, SchedulerDoes(cfg, s, k, op).db, id, claims)
  {
  }

  lemma ReplayStaysWithin(cfg: Config, s: State, q: nat, op: ReplayOp, id: nat, r: Round)
    requires Sound(cfg) && ReplayOk(cfg, s, Replay(s, q)) && ReplayCan(cfg, s, q, op) && Within(cfg, s.db, id, r.claims)
    ensures Within(cfg, ReplayDoes(cfg, s, q, op).db, id, Next(s, ByReplay(q, op), id, r).claims)
  {
  }

  /** A claim that leaves the count as it is stays within. */
  lemma ClaimStaysWithin(cfg: Config, s: State, w: nat, write: Write, id: nat, r: Round)
    requires Worker(s, w).Claiming? && CanStart(Worker(s, w).prev) && Worker(s, w).d.status == Processing
    requires Within(cfg, s.db, id, r.claims) && ClaimsKeepCount(s)
    requires id in s.db.deliveries ==> s.db.deliveries[id].retryCount >= 0
    ensures Within(cfg, AfterClaim(s, w, write).db, id, Next(s, ByWorker(w, Claim(write)), id, r).claims)
  {
    var d := Worker(s, w).d;
    var t := AfterClaim(s, w, write);
    if d.id in s.db.deliveries {
      assert d.id in t.db.deliveries && t.db.deliveries[d.id].retryCount == s.db.deliveries[d.id].retryCount;
    }
  }

  lemma SaveStaysWithin(cfg: Config, s: State, w: nat, write: Write, id: nat, claims: int)
    requires Sound(cfg) && WorkerOk(cfg, s, Worker(s, w)) && AtSave(Worker(s, w)) && Within(cfg, s.db, id, claims)
    ensures Within(cfg, AfterSave(s, w, write).db, id, claims)
  {
  }

  lemma WorkerStaysWithin(cfg: Config, s: State, w: nat, op: WorkerOp, id: nat, r: Round)
    requires Sound(cfg) && WorkerOk(cfg, s, Worker(s, w)) && WorkerCan(cfg, s, w, op)
    requires Within(cfg, s.db, id, r.claims) && ClaimsKeepCount(s)
    requires id in s.db.deliveries ==> s.db.deliveries[id].retryCount >= 0
    ensures Within(cfg, WorkerDoes(cfg, s, w, op).db, id, Next(s, ByWorker(w, op), id, r).claims)
  {
    match op
    case Claim(write) => ClaimStaysWithin(cfg, s, w, write, id, r);
    case Save(write) => SaveStaysWithin(cfg, s, w, write, id, r.claims);
    case _ => assert WorkerDoes(cfg, s, w, op).db.deliveries == s.db.deliveries;
  }

  lemma StepStaysWithin(cfg: Config, s: State, a: Action, id: nat, r: Round)
    requires Sound(cfg) && Enabled(cfg, s, a) && Within(cfg, s.db, id, r.claims) && ClaimsKeepCount(s)
    requires id in s.db.deliveries ==> s.db.deliveries[id].retryCount >= 0
    requires a.ByClient? ==> ClientOk(cfg, s, Client(s, a.c))
    requires a.ByScheduler? ==> SchedulerOk(cfg, s, Scheduler(s, a.k))
    requires a.ByWorker? ==> WorkerOk(cfg, s, Worker(s, a.w))
    requires a.ByReplay? ==> ReplayOk(cfg, s, Replay(s, a.r))
    ensures Within(cfg, Apply(cfg, s, a).db, id, Next(s, a, id, r).claims)
  {
    match a
    case ByClient(c, op) => ClientStaysWithin(cfg, s, c, op, id, r.claims);
    case ByPublisher(p, op) => PublisherFrame(cfg, s, p, op);
    case ByScheduler(k, op) => SchedulerStaysWithin(cfg, s, k, op, id, r.claims);
    case ByWorker(w, op) => WorkerStaysWithin(cfg, s, w, op, id, r);
    case ByReplay(q, op) => ReplayStaysWithin(cfg, s, q, op, id, r);
    case _ =>
  }

  lemma {:induction false} SmallLimitStaysWithin(cfg: Config, acts: seq<Action>, id: nat)
    requires Sound(cfg) && cfg.maxAttempts <= 2 && RunFrom(cfg, INIT, acts).Some?
    ensures Within(cfg, RunFrom(cfg, INIT, acts).value.db, id, RoundOf(cfg, acts, id).claims)
  {
    if acts != [] {
      var before, a := acts[..|acts| - 1], acts[|acts| - 1];
      var s := RunFrom(cfg, INIT, before).value;
      SmallLimitStaysWithin(cfg, before, id);
      assert Reachable(cfg, s);
      ReachableInv(cfg, s);
      ProcessesAt(cfg, s);
      if id in s.db.deliveries { assert RowOk(cfg, s, id); }
      SmallLimitKeepsCount(cfg, s);
      StepStaysWithin(cfg, s, a, id, RoundOf(cfg, before, id));
    }
  }

  // ----- Runs in which the claims of delivery 0 are counted

  /** The least number of claims: nothing but a claim adds to it, and there are no replays. */
  ghost predicate CountsClaims(cfg: Config, p: iset<(State, nat)>) {
    forall s, n, a :: (s, n) in p && Enabled(cfg, s, a) && !a.ByReplay? ==>
      (Apply(cfg, s, a), n + if Claims(s, a, 0) then 1 else 0) in p
  }

  /** A run without replays from `s` to `t` claims delivery 0 `n` times. */
  ghost predicate Claimed(cfg: Config, s: State, t: State, n: nat) {
    forall p :: CountsClaims(cfg, p) && (s, 0) in p ==> (t, n) in p
  }

  lemma ClaimedStep(cfg: Config, s: State, t: State, n: nat, w: nat, op: WorkerOp)
    requires Claimed(cfg, s, t, n) && WorkerCan(cfg, t, w, op) && !Claims(t, ByWorker(w, op), 0)
    ensures Claimed(cfg, s, WorkerDoes(cfg, t, w, op), n)
  {
    var a := ByWorker(w, op);
    forall p | CountsClaims(cfg, p) && (s, 0) in p ensures (WorkerDoes(cfg, t, w, op), n) in p {
      assert (t, n) in p && Enabled(cfg, t, a);
      assert (Apply(cfg, t, a), n + if Claims(t, a, 0) then 1 else 0) in p;
    }
  }

  lemma ClaimedOnce(cfg: Config, s: State, t: State, n: nat, w: nat)
    requires Claimed(cfg, s, t, n) && WorkerCan(cfg, t, w, Claim(Applied)) && Claims(t, ByWorker(w, Claim(Applied)), 0)
    ensures Claimed(cfg, s, AfterClaim(t, w, Applied), n + 1)
  {
    var a := ByWorker(w, Claim(Applied));
    forall p | CountsClaims(cfg, p) && (s, 0) in p ensures (AfterClaim(t, w, Applied), n + 1) in p {
      assert (t, n) in p && Enabled(cfg, t, a);
      assert (Apply(cfg, t, a), n + if Claims(t, a, 0) then 1 else 0) in p;
    }
  }

  lemma ClaimedRun(cfg: Config, s: State, t: State, n: nat, acts: seq<Action>) returns (all: seq<Action>)
    requires Claimed(cfg, s, t, n) && RunFrom(cfg, INIT, acts) == Some(s)
    ensures RunFrom(cfg, INIT, all) == Some(t) && RoundOf(cfg, all, 0).claims == RoundOf(cfg, acts, 0).claims + n
  {
    var base := RoundOf(cfg, acts, 0).claims;
    var p := iset u: State, m: nat | RunClaims(cfg, u, base, m) :: (u, m);
    assert RunClaims(cfg, s, base, 0);
    forall u, m, a | (u, m) in p && Enabled(cfg, u, a) && !a.ByReplay?
      ensures (Apply(cfg, u, a), m + if Claims(u, a, 0) then 1 else 0) in p
    {
      RunClaimsStep(cfg, u, base, m, a);
    }
    assert CountsClaims(cfg, p) && (t, n) in p;
    all :| RunFrom(cfg, INIT, all) == Some(t) && RoundOf(cfg, all, 0).claims == base + n;
  }

  ghost predicate RunClaims(cfg: Config, s: State, base: nat, n: nat) {
    exists acts :: RunFrom(cfg, INIT, acts) == Some(s) && RoundOf(cfg, acts, 0).claims == base + n
  }

  lemma RunClaimsStep(cfg: Config, s: State, base: nat, n: nat, a: Action)
    requires RunClaims(cfg, s, base, n) && Enabled(cfg, s, a) && !a.ByReplay?
    ensures RunClaims(cfg, Apply(cfg, s, a), base, n + if Claims(s, a, 0) then 1 else 0)
  {
    var acts :| RunFrom(cfg, INIT, acts) == Some(s) && RoundOf(cfg, acts, 0).claims == base + n;
    RunSnoc(cfg, INIT, acts, s, a);
    assert (acts + [a])[..|acts|] == acts;
    assert RoundOf(cfg, acts + [a], 0).claims == base + n + if Claims(s, a, 0) then 1 else 0;
  }

  // ----- With a larger limit

  predicate CopyOf0(cfg: Config, s: State, c: Copy) {
    Outstanding(cfg, s.bus, c) && s.bus.stream[c.msg].delivery == 0
  }

  /** Delivery 0 waits to be claimed with the given count, and two copies of its messages are outstanding. */
  ghost predicate Waiting0(cfg: Config, s: State, a: Copy, b: Copy, retryCount: nat) {
    && 0 in s.db.deliveries && s.db.deliveries[0].id == 0 && s.db.deliveries[0].retryCount == retryCount
    && CanStart(s.db.deliveries[0].status)
    && CopyOf0(cfg, s, a) && CopyOf0(cfg, s, b) && a != b
  }

  /** Worker `w` loads the delivery. */
  lemma Load(cfg: Config, s0: State, s: State, n: nat, w: nat, copy: Copy) returns (t: State)
    requires Claimed(cfg, s0, s, n) && Worker(s, w).Free? && CopyOf0(cfg, s, copy) && Unheld(s, copy)
    requires 0 in s.db.deliveries && CanStart(s.db.deliveries[0].status)
    ensures Claimed(cfg, s0, t, n)
    ensures t == s.(workers := s.workers[w := Claiming(copy, Stamped(s.db.deliveries[0], Processing, s.now), s.db.deliveries[0].status)])
  {
    ClaimedStep(cfg, s0, s, n, w, Pull(copy));
    var s1 := WorkerDoes(cfg, s, w, Pull(copy));
    ClaimedStep(cfg, s0, s1, n, w, Find(true));
    t := WorkerDoes(cfg, s1, w, Find(true));
    assert t.workers == s.workers[w := Claiming(copy, Stamped(s.db.deliveries[0], Processing, s.now), s.db.deliveries[0].status)];
  }

  /** Worker `w` claims the delivery with the count it has loaded. */
  lemma ClaimIt(cfg: Config, s0: State, s: State, n: nat, w: nat) returns (t: State)
    requires Claimed(cfg, s0, s, n) && Worker(s, w).Claiming? && Worker(s, w).d.id == 0 && HasStatus(s.db, 0, Worker(s, w).prev)
    ensures Claimed(cfg, s0, t, n + 1)
    ensures var pc := Worker(s, w);
            t == s.(db := Updated(s.db, pc.d), workers := s.workers[w := Owning(pc.copy, pc.d, pc.d, None, Gating)])
  {
    ClaimedOnce(cfg, s0, s, n, w);
    t := AfterClaim(s, w, Applied);
  }

  /** The provider fails for now, and the worker stores the retry and hands its copy back. */
  lemma FailIt(cfg: Config, s0: State, s: State, n: nat, w: nat) returns (t: State)
    requires Claimed(cfg, s0, s, n) && Worker(s, w).Owning? && Worker(s, w).stage == Gating
    requires Worker(s, w).d.retryCount + 1 < cfg.maxAttempts
    ensures Claimed(cfg, s0, t, n)
    ensures t == s.(db := t.db, workers := s.workers[w := Free], log := t.log)
    ensures t.db.deliveries == Updated(s.db, MarkedRetrying(Worker(s, w).d, "unavailable", s.now)).deliveries
  {
    ClaimedStep(cfg, s0, s, n, w, Gate(Cleared));
    var s1 := WorkerDoes(cfg, s, w, Gate(Cleared));
    ClaimedStep(cfg, s0, s1, n, w, Send(TransientError("unavailable")));
    var s2 := WorkerDoes(cfg, s1, w, Send(TransientError("unavailable")));
    ClaimedStep(cfg, s0, s2, n, w, Save(Applied));
    var s3 := WorkerDoes(cfg, s2, w, Save(Applied));
    t := LetGo(cfg, s0, s3, n, w);
    assert t.workers == s.workers[w := Free];
  }

  lemma LetGo(cfg: Config, s0: State, s: State, n: nat, w: nat) returns (t: State)
    requires Claimed(cfg, s0, s, n) && Worker(s, w).Closing? && Worker(s, w).rest == RecordingRetry && Worker(s, w).attempt.Some?
    ensures Claimed(cfg, s0, t, n)
    ensures t == s.(db := t.db, workers := s.workers[w := Free]) && t.db.deliveries == s.db.deliveries
  {
    ClaimedStep(cfg, s0, s, n, w, Record(Applied));
    var s1 := WorkerDoes(cfg, s, w, Record(Applied));
    ClaimedStep(cfg, s0, s1, n, w, Reply);
    t := WorkerDoes(cfg, s1, w, Reply);
    assert t.workers == s.workers[w := Free];
  }

  /** One dispatch that fails for now, by a worker that has loaded the delivery with `count`. */
  lemma FailRound(cfg: Config, s0: State, s: State, n: nat, w: nat, a: Copy, b: Copy, stored: nat, count: nat) returns (t: State)
    requires Claimed(cfg, s0, s, n) && Waiting0(cfg, s, a, b, stored) && count + 1 < cfg.maxAttempts
    requires Worker(s, w).Claiming? && Worker(s, w).d.id == 0 && Worker(s, w).d.retryCount == count
    requires HasStatus(s.db, 0, Worker(s, w).prev)
    ensures Claimed(cfg, s0, t, n + 1) && Waiting0(cfg, t, a, b, count + 1) && HasStatus(t.db, 0, Retrying)
    ensures t.workers == s.workers[w := Free]
  {
    var s1 := ClaimIt(cfg, s0, s, n, w);
    t := FailIt(cfg, s0, s1, n + 1, w);
    assert t.workers == s.workers[w := Free];
  }

  /** Worker 0 takes the count from one to the last below the limit, while worker 1 has loaded it at one. */
  lemma {:induction false} Climb(cfg: Config, s0: State, s: State, n: nat, a: Copy, b: Copy, count: nat) returns (t: State)
    requires Claimed(cfg, s0, s, n) && Waiting0(cfg, s, a, b, count) && HasStatus(s.db, 0, Retrying) && 1 <= count < cfg.maxAttempts
    requires Worker(s, 0).Free? && StaleAtOne(s, b)
    ensures Claimed(cfg, s0, t, n + (cfg.maxAttempts - 1 - count)) && Waiting0(cfg, t, a, b, cfg.maxAttempts - 1)
    ensures HasStatus(t.db, 0, Retrying) && Worker(t, 0).Free? && StaleAtOne(t, b)
    decreases cfg.maxAttempts - count
  {
    if count == cfg.maxAttempts - 1 {
      t := s;
    } else {
      forall v | v in s.workers ensures v == 1 || s.workers[v].Free? { assert v == 1 || Worker(s, v).Free?; }
      var s1 := Load(cfg, s0, s, n, 0, a);
      var s2 := FailRound(cfg, s0, s1, n, 0, a, b, count, count);
      forall w | w != 1 ensures Worker(s2, w).Free? { assert Worker(s, w).Free?; }
      t := Climb(cfg, s0, s2, n + 1, a, b, count + 1);
    }
  }

  /** Worker 1 competes for the delivery with the count it had after its first retry; no other worker has a message. */
  ghost predicate StaleAtOne(s: State, b: Copy) {
    && Worker(s, 1).Claiming? && Worker(s, 1).copy == b && Worker(s, 1).prev == Retrying
    && Worker(s, 1).d.id == 0 && Worker(s, 1).d.retryCount == 1
    && forall w :: w != 1 ==> Worker(s, w).Free?
  }

  /** A pending or queued delivery has not been claimed since its last replay, whatever the limit. */
  predicate Unclaimed(db: Db, id: nat, claims: int) {
    id !in db.deliveries || db.deliveries[id].status in {Pending, Queued} ==> claims == 0
  }

  lemma UnclaimedStep(cfg: Config, s: State, a: Action, id: nat, r: Round)
    requires Sound(cfg) && Inv(cfg, s) && Enabled(cfg, s, a) && Unclaimed(s.db, id, r.claims)
    ensures Unclaimed(Apply(cfg, s, a).db, id, Next(s, a, id, r).claims)
  {
    if id in s.db.deliveries {
      StatusStep(cfg, s, a, id);
      if a.ByReplay? { ReplayUnclaims(cfg, s, a.r, a.rop, id, r); }
    }
  }

  lemma ReplayUnclaims(cfg: Config, s: State, q: nat, op: ReplayOp, id: nat, r: Round)
    requires ReplayCan(cfg, s, q, op) && Unclaimed(s.db, id, r.claims)
    ensures Unclaimed(ReplayDoes(cfg, s, q, op).db, id, Next(s, ByReplay(q, op), id, r).claims)
  {
  }

  lemma {:induction false} QueuedIsUnclaimed(cfg: Config, acts: seq<Action>, id: nat)
    requires Sound(cfg) && RunFrom(cfg, INIT, acts).Some?
    ensures Inv(cfg, RunFrom(cfg, INIT, acts).value)
    ensures Unclaimed(RunFrom(cfg, INIT, acts).value.db, id, RoundOf(cfg, acts, id).claims)
  {
    if acts == [] {
      InitInv(cfg);
    } else {
      var before, a := acts[..|acts| - 1], acts[|acts| - 1];
      QueuedIsUnclaimed(cfg, before, id);
      StepKeepsInv(cfg, RunFrom(cfg, INIT, before).value, a);
      UnclaimedStep(cfg, RunFrom(cfg, INIT, before).value, a, id, RoundOf(cfg, before, id));
    }
  }

  /** One request, published twice because a mark was lost: any one consumer has two copies. */
  lemma PublishedRun(cfg: Config) returns (acts: seq<Action>, s: State, a: Copy, b: Copy)
    requires Live(cfg)
    ensures RunFrom(cfg, INIT, acts) == Some(s) && (Sound(cfg) ==> RoundOf(cfg, acts, 0).claims == 0)
    ensures Waiting0(cfg, s, a, b, 0) && s.workers == map[]
  {
    InitIsCalm(cfg);
    var s1, d := IngestRun(cfg, INIT, 0, REQUEST);
    var s2 := FetchRun(cfg, s1);
    var s3 := PublishUnmarked(cfg, s2);
    s := PublishRun(cfg, s3);
    var c :| c in cfg.consumers;
    a, b := Copy(c, 0), Copy(c, 1);
    acts := CalmRun(cfg, s);
    if Sound(cfg) { QueuedIsUnclaimed(cfg, acts, 0); }
  }

  /** With delivery 0 at the last count below the limit, worker 1 still has it at one. */
  lemma StaleRun(cfg: Config) returns (acts: seq<Action>, s0: State, s: State, a: Copy, b: Copy)
    requires Live(cfg) && cfg.maxAttempts >= 3
    ensures RunFrom(cfg, INIT, acts) == Some(s0) && (Sound(cfg) ==> RoundOf(cfg, acts, 0).claims == 0)
    ensures Claimed(cfg, s0, s, cfg.maxAttempts - 1) && Waiting0(cfg, s, a, b, cfg.maxAttempts - 1)
    ensures HasStatus(s.db, 0, Retrying) && StaleAtOne(s, b)
  {
    acts, s0, a, b := PublishedRun(cfg);
    var s1 := Load(cfg, s0, s0, 0, 0, a);
    var s2 := FailRound(cfg, s0, s1, 0, 0, a, b, 0, 0);
    var s3 := Load(cfg, s0, s2, 1, 1, b);
    s := Climb(cfg, s0, s3, 1, a, b, 1);
  }

  /** With a limit of three or more a claim can take the stored count down. */
  lemma RetryCountCanFall(cfg: Config) returns (s: State)
    requires Live(cfg) && cfg.maxAttempts >= 3
    ensures Reachable(cfg, s) && WorkerCan(cfg, s, 1, Claim(Applied)) && 0 in s.db.deliveries
    ensures var t := AfterClaim(s, 1, Applied);
            0 in t.db.deliveries && t.db.deliveries[0].retryCount == 1 < s.db.deliveries[0].retryCount == cfg.maxAttempts - 1
  {
    var acts, s0, a, b;
    acts, s0, s, a, b := StaleRun(cfg);
    var all := ClaimedRun(cfg, s0, s, cfg.maxAttempts - 1, acts);
  }

  /** And then the delivery is dispatched more often than the limit allows, without a replay. */
  lemma TooManyDispatches(cfg: Config) returns (acts: seq<Action>)
    requires Sound(cfg) && Live(cfg) && cfg.maxAttempts >= 3
    ensures RunFrom(cfg, INIT, acts).Some? && RoundOf(cfg, acts, 0).claims == cfg.maxAttempts + 1
  {
    var before, s0, s1, a, b := StaleRun(cfg);
    var s2 := FailRound(cfg, s0, s1, cfg.maxAttempts - 1, 1, a, b, cfg.maxAttempts - 1, 1);
    forall w | w in s2.workers ensures s2.workers[w].Free? { assert w == 1 || Worker(s1, w).Free?; }
    var s3 := Load(cfg, s0, s2, cfg.maxAttempts, 0, a);
    var s4 := ClaimIt(cfg, s0, s3, cfg.maxAttempts, 0);
    acts := ClaimedRun(cfg, s0, s4, cfg.maxAttempts + 1, before);
  }

  /** No claim ever changes a stored retry count exactly when the limit is two or less. */
  lemma ClaimsKeepCountExactly(cfg: Config)
    requires Live(cfg)
    ensures (forall s :: Reachable(cfg, s) ==> ClaimsKeepCount(s)) <==> cfg.maxAttempts <= 2
  {
    if cfg.maxAttempts <= 2 {
      forall s | Reachable(cfg, s) ensures ClaimsKeepCount(s) {
        SmallLimitKeepsCount(cfg, s);
      }
    } else {
      var s := RetryCountCanFall(cfg);
      assert !ClaimsKeepCount(s) by {
        var t := AfterClaim(s, 1, Applied);
        assert t.db.deliveries[0].retryCount != s.db.deliveries[0].retryCount;
      }
    }
  }

  /** The retry limit bounds the dispatches between replays, in all runs, exactly when it is two or less. */
  lemma DispatchLimitExactly(cfg: Config)
    requires Sound(cfg) && Live(cfg)
    ensures (forall acts, id :: RunFrom(cfg, INIT, acts).Some? ==> RoundOf(cfg, acts, id).claims <= RetryLimit(cfg))
            <==> cfg.maxAttempts <= 2
  {
    if cfg.maxAttempts <= 2 {
      forall acts, id | RunFrom(cfg, INIT, acts).Some? ensures RoundOf(cfg, acts, id).claims <= RetryLimit(cfg) {
        SmallLimitBounds(cfg, acts, id);
      }
    } else {
      var acts := TooManyDispatches(cfg);
      assert RoundOf(cfg, acts, 0).claims > RetryLimit(cfg);
    }
  }

  lemma SmallLimitBounds(cfg: Config, acts: seq<Action>, id: nat)
    requires Sound(cfg) && cfg.maxAttempts <= 2 && RunFrom(cfg, INIT, acts).Some?
    ensures RoundOf(cfg, acts, id).claims <= RetryLimit(cfg)
  {
    var s := RunFrom(cfg, INIT, acts).value;
    SmallLimitStaysWithin(cfg, acts, id);
    RetryCountBound(cfg, s);
  }
}
