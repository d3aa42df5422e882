/**
  How often the broker must be willing to deliver a message. With one worker, whose reads
  and writes succeed, a copy is pulled again only after an attempt that ended in a retry,
  so a `MaxDeliver` of the retry limit is enough as long as the delivery is not replayed.
*/
module Redelivery {
  import opened Notification
  import opened Protocol
  import opened Frames
  import opened Safety
  import opened Guarantees
  import opened Retries

  /** The reads of the worker succeed too. */
  predicate Reliable(a: Action) {
    Solo(a) && (a.ByWorker? ==> a.wop != Find(false) && a.wop != Audit(false))
  }

  predicate AllReliable(acts: seq<Action>) {
    forall i :: 0 <= i < |acts| ==> Reliable(acts[i])
  }

  /** The number of times that the copy was delivered. */
  function Pulls(acts: seq<Action>, c: Copy): nat {
    if acts == [] then 0
    else Pulls(acts[..|acts| - 1], c) + PullsIt(acts[|acts| - 1], c)
  }

  function PullsIt(a: Action, c: Copy): nat {
    if a.ByWorker? && a.wop == Pull(c) then 1 else 0
  }

  predicate IsMessageOf(s: State, c: Copy, id: nat) {
    c.msg < |s.bus.stream| && s.bus.stream[c.msg].delivery == id
  }

  /** The claims of the round that have ended in a retry. */
  function Retried(d: Row, r: Round): int {
    if d.status in {Pending, Queued, Retrying} then r.claims else r.claims - 1
  }

  function Budget(cfg: Config, d: Row, r: Round): int {
    (RetryLimit(cfg) - 1) * r.replays + Retried(d, r)
  }

  /** The last delivery of the copy is under way and has not ended in a retry, or has been acknowledged. */
  predicate Unsettled(s: State, c: Copy) {
    var pc := Worker(s, 0);
    || c in s.bus.acked
    || (!pc.Free? && pc.copy == c && !(pc.Closing? && pc.rest == RecordingRetry) && !(pc.Replying? && !pc.ack))
  }

  predicate Paid(cfg: Config, s: State, id: nat, c: Copy, r: Round, pulls: nat) {
    if id in s.db.deliveries && IsMessageOf(s, c, id)
    then pulls <= Budget(cfg, s.db.deliveries[id], r) + if Unsettled(s, c) then 1 else 0
    else IsMessageOf(s, c, id) || c.msg >= |s.bus.stream| ==> pulls == 0
  }

  // ----- Steps of the worker

  lemma FindIsPaid(cfg: Config, s: State, id: nat, c: Copy, r: Round, pulls: nat)
    requires Tracks(cfg, s, id, r) && Paid(cfg, s, id, c, r, pulls) && WorkerCan(cfg, s, 0, Find(true))
    requires forall m :: 0 <= m < |s.bus.stream| ==> Promoted(s, s.bus.stream[m].delivery)
    ensures Paid(cfg, WorkerDoes(cfg, s, 0, Find(true)), id, c, r, pulls)
  {
    assert Promoted(s, s.bus.stream[Worker(s, 0).copy.msg].delivery);
  }

  lemma ClaimIsPaid(cfg: Config, s: State, id: nat, c: Copy, r: Round, pulls: nat)
    requires Tracks(cfg, s, id, r) && Paid(cfg, s, id, c, r, pulls) && Worker(s, 0).Claiming? && WorkerOk(cfg, s, Worker(s, 0))
    ensures Paid(cfg, AfterClaim(s, 0, Applied), id, c, Next(s, ByWorker(0, Claim(Applied)), id, r), pulls)
  {
  }

  lemma SaveIsPaid(cfg: Config, s: State, id: nat, c: Copy, r: Round, pulls: nat)
    requires Sound(cfg) && Tracks(cfg, s, id, r) && Paid(cfg, s, id, c, r, pulls)
    requires AtSave(Worker(s, 0)) && WorkerOk(cfg, s, Worker(s, 0))
    ensures Paid(cfg, AfterSave(s, 0, Applied), id, c, r, pulls)
  {
  }

  lemma SendIsPaid(cfg: Config, s: State, result: SendResult, id: nat, c: Copy, r: Round, pulls: nat)
    requires Paid(cfg, s, id, c, r, pulls) && WorkerCan(cfg, s, 0, Send(result))
    ensures Paid(cfg, AfterSend(cfg, s, 0, result), id, c, r, pulls)
  {
  }

  lemma OtherwisePaid(cfg: Config, s: State, op: WorkerOp, id: nat, c: Copy, r: Round, pulls: nat)
    requires Paid(cfg, s, id, c, r, pulls) && WorkerCan(cfg, s, 0, op) && Reliable(ByWorker(0, op))
    requires !op.Find? && !op.Claim? && !op.Save? && !op.Send? && !op.Record?
    requires forall m :: 0 <= m < |s.bus.stream| ==> Promoted(s, s.bus.stream[m].delivery)
    ensures Paid(cfg, WorkerDoes(cfg, s, 0, op), id, c, r, pulls + PullsIt(ByWorker(0, op), c))
  {
    if op.Pull? { assert Promoted(s, s.bus.stream[op.copy.msg].delivery); }
  }

  lemma RecordIsPaid(cfg: Config, s: State, id: nat, c: Copy, r: Round, pulls: nat)
    requires Paid(cfg, s, id, c, r, pulls) && WorkerCan(cfg, s, 0, Record(Applied))
    ensures Paid(cfg, AfterRecord(s, 0, Applied), id, c, Next(s, ByWorker(0, Record(Applied)), id, r), pulls)
  {
  }

  lemma WorkerIsPaid(cfg: Config, s: State, op: WorkerOp, id: nat, c: Copy, r: Round, pulls: nat)
    requires Sound(cfg) && Tracks(cfg, s, id, r) && Paid(cfg, s, id, c, r, pulls) && WorkerOk(cfg, s, Worker(s, 0))
    requires WorkerCan(cfg, s, 0, op) && Reliable(ByWorker(0, op))
    requires forall m :: 0 <= m < |s.bus.stream| ==> Promoted(s, s.bus.stream[m].delivery)
    ensures var a := ByWorker(0, op);
            Paid(cfg, WorkerDoes(cfg, s, 0, op), id, c, Next(s, a, id, r), pulls + PullsIt(a, c))
  {
    match op
    case Find(_) => FindIsPaid(cfg, s, id, c, r, pulls);
    case Claim(_) => ClaimIsPaid(cfg, s, id, c, r, pulls);
    case Send(result) => SendIsPaid(cfg, s, result, id, c, r, pulls);
    case Record(_) => RecordIsPaid(cfg, s, id, c, r, pulls);
    case Save(_) => SaveIsPaid(cfg, s, id, c, r, pulls);
    case _ => OtherwisePaid(cfg, s, op, id, c, r, pulls);
  }

  // ----- Steps of the others

  lemma ClientIsPaid(cfg: Config, s: State, k: nat, op: ClientOp, id: nat, c: Copy, r: Round, pulls: nat)
    requires Paid(cfg, s, id, c, r, pulls) && ClientOk(cfg, s, Client(s, k)) && ClientCan(s, k, op)
    requires Tracks(cfg, s, id, r) && forall m :: 0 <= m < |s.bus.stream| ==> Promoted(s, s.bus.stream[m].delivery)
    ensures Paid(cfg, ClientDoes(cfg, s, k, op), id, c, r, pulls)
  {
    if IsMessageOf(s, c, id) { assert Promoted(s, s.bus.stream[c.msg].delivery); }
    if op.Commit? && Client(s, k).d.key !in s.db.keys { CommitStores(cfg, s, k); } else { ClientFrame(cfg, s, k, op); }
    assert ClientDoes(cfg, s, k, op).bus == s.bus && ClientDoes(cfg, s, k, op).workers == s.workers;
  }

  /** A new message has not been delivered yet. */
  lemma NewMessageIsPaid(cfg: Config, s: State, t: State, id: nat, c: Copy, r: Round, pulls: nat)
    requires Paid(cfg, s, id, c, r, pulls) && t.db.deliveries == s.db.deliveries && t.workers == s.workers
    requires t.bus.acked == s.bus.acked && s.bus.stream <= t.bus.stream && |t.bus.stream| <= |s.bus.stream| + 1
    requires Sound(cfg) && Tracks(cfg, s, id, r) && WorkerOk(cfg, s, Worker(s, 0))
    ensures Paid(cfg, t, id, c, r, pulls)
  {
    if id in s.db.deliveries && c.msg == |s.bus.stream| { BudgetIsNoDebt(cfg, s, id, r); }
  }

  lemma BudgetIsNoDebt(cfg: Config, s: State, id: nat, r: Round)
    requires Sound(cfg) && id in s.db.deliveries && Tracks(cfg, s, id, r) && WorkerOk(cfg, s, Worker(s, 0))
    ensures Budget(cfg, s.db.deliveries[id], r) >= 0
  {
    assert (RetryLimit(cfg) - 1) * r.replays >= 0;
  }

  lemma PublisherIsPaid(cfg: Config, s: State, p: nat, op: PublisherOp, id: nat, c: Copy, r: Round, pulls: nat)
    requires Sound(cfg) && Paid(cfg, s, id, c, r, pulls) && Tracks(cfg, s, id, r) && PublisherCan(s, p, op)
    requires WorkerOk(cfg, s, Worker(s, 0))
    ensures Paid(cfg, PublisherDoes(cfg, s, p, op), id, c, r, pulls)
  {
    NewMessageIsPaid(cfg, s, PublisherDoes(cfg, s, p, op), id, c, r, pulls);
  }

  lemma SchedulerIsPaid(cfg: Config, s: State, k: nat, op: SchedulerOp, id: nat, c: Copy, r: Round, pulls: nat)
    requires Sound(cfg) && Paid(cfg, s, id, c, r, pulls) && SchedulerOk(cfg, s, Scheduler(s, k)) && SchedulerCan(cfg, s, k, op)
    ensures Paid(cfg, SchedulerDoes(cfg, s, k, op), id, c, r, pulls)
  {
  }

  /** A replay begins a new round, and what the old one has spent is within the limit. */
  lemma RequeueIsPaid(cfg: Config, s: State, q: nat, write: Write, id: nat, c: Copy, r: Round, pulls: nat)
    requires Sound(cfg) && Paid(cfg, s, id, c, r, pulls) && Tracks(cfg, s, id, r)
    requires ReplayOk(cfg, s, Replay(s, q)) && Replay(s, q).Saving?
    ensures var a := ByReplay(q, Requeue(write));
            Paid(cfg, ReplayDoes(cfg, s, q, Requeue(write)), id, c, Next(s, a, id, r), pulls)
  {
    if id in s.db.deliveries && Requeues(s, ByReplay(q, Requeue(write)), id) {
      NewRoundPays(cfg, s.db.deliveries[id], r);
    }
  }

  lemma NewRoundPays(cfg: Config, d: Row, r: Round)
    requires d.status == Dlq && r.claims <= RetryLimit(cfg)
    ensures Budget(cfg, d, r) <= (RetryLimit(cfg) - 1) * (r.replays + 1)
  {
  }

  lemma ReplayIsPaid(cfg: Config, s: State, q: nat, op: ReplayOp, id: nat, c: Copy, r: Round, pulls: nat)
    requires Sound(cfg) && Paid(cfg, s, id, c, r, pulls) && Tracks(cfg, s, id, r)
    requires ReplayOk(cfg, s, Replay(s, q)) && ReplayCan(cfg, s, q, op) && WorkerOk(cfg, s, Worker(s, 0))
    ensures Paid(cfg, ReplayDoes(cfg, s, q, op), id, c, Next(s, ByReplay(q, op), id, r), pulls)
  {
    if op.Requeue? {
      RequeueIsPaid(cfg, s, q, op.write, id, c, r, pulls);
    } else {
      NewMessageIsPaid(cfg, s, ReplayDoes(cfg, s, q, op), id, c, r, pulls);
    }
  }

  lemma StepIsPaid(cfg: Config, s: State, a: Action, id: nat, c: Copy, r: Round, pulls: nat)
    requires Sound(cfg) && Reachable(cfg, s) && Enabled(cfg, s, a) && Reliable(a)
    requires Tracks(cfg, s, id, r) && Paid(cfg, s, id, c, r, pulls)
    ensures Paid(cfg, Apply(cfg, s, a), id, c, Next(s, a, id, r), pulls + PullsIt(a, c))
  {
    ReachableInv(cfg, s);
    ProcessesAt(cfg, s);
    forall m | 0 <= m < |s.bus.stream| ensures Promoted(s, s.bus.stream[m].delivery) {
      assert Released(cfg, s.db, s.bus.stream[m].delivery, s.bus.stream[m].subject);
    }
    OneStepIsPaid(cfg, s, a, id, c, r, pulls);
  }

  lemma OneStepIsPaid(cfg: Config, s: State, a: Action, id: nat, c: Copy, r: Round, pulls: nat)
    requires Sound(cfg) && Enabled(cfg, s, a) && Reliable(a) && Tracks(cfg, s, id, r) && Paid(cfg, s, id, c, r, pulls)
    requires WorkerOk(cfg, s, Worker(s, 0)) && forall m :: 0 <= m < |s.bus.stream| ==> Promoted(s, s.bus.stream[m].delivery)
    requires a.ByClient? ==> ClientOk(cfg, s, Client(s, a.c))
    requires a.ByScheduler? ==> SchedulerOk(cfg, s, Scheduler(s, a.k))
    requires a.ByReplay? ==> ReplayOk(cfg, s, Replay(s, a.r))
    ensures Paid(cfg, Apply(cfg, s, a), id, c, Next(s, a, id, r), pulls + PullsIt(a, c))
  {
    match a
    case ByClient(k, op) => ClientIsPaid(cfg, s, k, op, id, c, r, pulls);
    case ByPublisher(p, op) => PublisherIsPaid(cfg, s, p, op, id, c, r, pulls);
    case ByScheduler(k, op) => SchedulerIsPaid(cfg, s, k, op, id, c, r, pulls);
    case ByWorker(w, op) => WorkerIsPaid(cfg, s, op, id, c, r, pulls);
    case ByReplay(q, op) => ReplayIsPaid(cfg, s, q, op, id, c, r, pulls);
    case _ =>
  }

  lemma {:induction false} RunIsPaid(cfg: Config, acts: seq<Action>, id: nat, c: Copy)
    requires Sound(cfg) && RunFrom(cfg, INIT, acts).Some? && AllReliable(acts)
    ensures AllSolo(acts) && Paid(cfg, RunFrom(cfg, INIT, acts).value, id, c, RoundOf(cfg, acts, id), Pulls(acts, c))
  {
    if acts != [] {
      var before, a := acts[..|acts| - 1], acts[|acts| - 1];
      RunIsPaid(cfg, before, id, c);
      RunTracks(cfg, before, id);
      StepIsPaid(cfg, RunFrom(cfg, INIT, before).value, a, id, c, RoundOf(cfg, before, id), Pulls(before, c));
    }
  }

  function PullLimit(cfg: Config, replays: nat): int {
    (RetryLimit(cfg) - 1) * (1 + replays) + 1
  }

  /**
    No copy of a message is delivered more than (max(1, maxAttempts) - 1) * (1 + replays) + 1 times, which
    without replays is the retry limit: a `MaxDeliver` of that size never cuts a delivery off.
  */
  lemma DeliveriesOfACopy(cfg: Config, acts: seq<Action>, id: nat, c: Copy)
    requires Sound(cfg) && RunFrom(cfg, INIT, acts).Some? && AllReliable(acts)
    requires IsMessageOf(RunFrom(cfg, INIT, acts).value, c, id)
    ensures Pulls(acts, c) <= PullLimit(cfg, RoundOf(cfg, acts, id).replays)
    ensures RoundOf(cfg, acts, id).replays == 0 ==> Pulls(acts, c) <= RetryLimit(cfg)
  {
    var s, r := RunFrom(cfg, INIT, acts).value, RoundOf(cfg, acts, id);
    RunIsPaid(cfg, acts, id, c);
    RunTracks(cfg, acts, id);
    RetryCountBound(cfg, s);
    ReachableInv(cfg, s);
    ProcessesAt(cfg, s);
    if id in s.db.deliveries {
      RetriedIsBounded(cfg, s, id, r);
      PullsAreBounded(cfg, s.db.deliveries[id], r, Pulls(acts, c));
    }
  }

  lemma RetriedIsBounded(cfg: Config, s: State, id: nat, r: Round)
    requires Sound(cfg) && id in s.db.deliveries && Tracks(cfg, s, id, r) && WorkerOk(cfg, s, Worker(s, 0))
    requires s.db.deliveries[id].retryCount < RetryLimit(cfg)
    ensures Retried(s.db.deliveries[id], r) <= RetryLimit(cfg) - 1
  {
  }

  lemma PullsAreBounded(cfg: Config, d: Row, r: Round, pulls: nat)
    requires pulls <= Budget(cfg, d, r) + 1 && Retried(d, r) <= RetryLimit(cfg) - 1
    ensures pulls <= PullLimit(cfg, r.replays) && (r.replays == 0 ==> pulls <= RetryLimit(cfg))
  {
  }
}
