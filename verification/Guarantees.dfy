/**
  What the invariant means to somebody who watches the system from outside:
  theorems about every reachable state, every step from one, and every run.
*/
module Guarantees {
  import opened Wrappers
  import opened Notification
  import opened Protocol
  import opened Frames
  import opened Safety

  function KeyOf(s: State, id: nat): Option<Key> {
    if id in s.db.deliveries then Some(s.db.deliveries[id].key) else None
  }

  /** No two provider calls that returned success were for the same idempotency key and channel. */
  ghost predicate AtMostOncePerKey(s: State) {
    forall i, j :: 0 <= i < j < |s.log.sends| && s.log.sends[i].ok && s.log.sends[j].ok ==>
      KeyOf(s, s.log.sends[i].delivery) != KeyOf(s, s.log.sends[j].delivery)
  }

  lemma OneDeliveryPerKey(cfg: Config, s: State, a: nat, b: nat)
    requires Reachable(cfg, s)
    requires a in s.db.deliveries && b in s.db.deliveries && s.db.deliveries[a].key == s.db.deliveries[b].key
    ensures a == b
  {
    ReachableInv(cfg, s);
    assert RowOk(cfg, s, a) && RowOk(cfg, s, b);
  }

  /** Effectively-once, for any number of workers, redeliveries, replays, failures and crashes. */
  lemma EffectivelyOnce(cfg: Config, s: State)
    requires Sound(cfg) && Reachable(cfg, s)
    ensures AtMostOncePerKey(s)
  {
    ReachableInv(cfg, s);
    forall i, j | 0 <= i < j < |s.log.sends| && s.log.sends[i].ok && s.log.sends[j].ok
      ensures KeyOf(s, s.log.sends[i].delivery) != KeyOf(s, s.log.sends[j].delivery)
    {
      var a, b := s.log.sends[i].delivery, s.log.sends[j].delivery;
      assert EventOk(cfg, s, s.log.sends[i]) && EventOk(cfg, s, s.log.sends[j]);
      if KeyOf(s, a) == KeyOf(s, b) { OneDeliveryPerKey(cfg, s, a, b); }
    }
  }

  /** No provider call happens before its delivery's scheduled time, in any deployment. */
  lemma NoEarlySend(cfg: Config, s: State, i: nat)
    requires Reachable(cfg, s) && i < |s.log.sends|
    ensures var e := s.log.sends[i];
            e.delivery in s.db.deliveries && Due(s.db.deliveries[e.delivery], e.at) && e.at <= s.now
  {
    ReachableInv(cfg, s);
    assert EventOk(cfg, s, s.log.sends[i]);
  }

  /** Broker messages refer to promoted deliveries only, under subjects that parse back to their channel and priority. */
  lemma MessagesAreAddressed(cfg: Config, s: State, m: nat)
    requires Reachable(cfg, s) && m < |s.bus.stream|
    ensures var msg := s.bus.stream[m];
            && msg.delivery in s.db.deliveries && s.db.deliveries[msg.delivery].status != Pending
            && ('.' !in cfg.prefix ==>
                  var d := s.db.deliveries[msg.delivery];
                  Routing.ParseNotificationSubject(cfg.prefix, msg.subject) == Some((d.key.channel, d.priority)))
  {
    ReachableInv(cfg, s);
    var msg := s.bus.stream[m];
    assert Released(cfg, s.db, msg.delivery, msg.subject);
    var d := s.db.deliveries[msg.delivery];
    Routing.PrintParse(cfg.prefix, d.key.channel, d.priority);
  }

  /** A row marked published means that a message for its delivery did reach the broker. */
  lemma PublishedReachedBroker(cfg: Config, s: State, r: nat)
    requires Reachable(cfg, s) && r < |s.db.outbox| && s.db.outbox[r].published
    ensures exists m :: 0 <= m < |s.bus.stream| && s.bus.stream[m].delivery == s.db.outbox[r].delivery
  {
    ReachableInv(cfg, s);
    assert Announced(s.bus, s.db.outbox[r].delivery);
  }

  lemma NoSecondOutboxRow(cfg: Config, s: State, q: nat, r: nat)
    requires cfg.oneScheduler && Reachable(cfg, s)
    requires q < |s.db.outbox| && r < |s.db.outbox| && s.db.outbox[q].delivery == s.db.outbox[r].delivery
    ensures q == r
  {
    ReachableInv(cfg, s);
  }

  /** A commit that inserts leaves exactly one trace to follow: a queued outbox row now, or a scheduled row for later. */
  lemma CommitYieldsExactlyOne(cfg: Config, s: State, c: nat)
    requires Reachable(cfg, s) && ClientCan(s, c, Commit) && Client(s, c).d.key !in s.db.keys
    ensures var t, id := ClientDoes(cfg, s, c, Commit), Client(s, c).d.id;
            var queued := HasStatus(t.db, id, Queued) && t.db.outbox == s.db.outbox + [OutboxRow(id, SubjectOf(cfg, t.db.deliveries[id]), false, 0)];
            var later := HasStatus(t.db, id, Pending) && NoOutboxRow(t.db, id);
            && queued != later
            && (later <==> id in t.db.scheduled && !t.db.scheduled[id].processed)
            && (queued ==> Due(t.db.deliveries[id], t.now))
  {
    ReachableInv(cfg, s);
    assert ClientOk(cfg, s, Client(s, c));
    NewIdHasNoRow(cfg, s, c);
    CommitStores(cfg, s, c);
  }

  lemma NewIdHasNoRow(cfg: Config, s: State, c: nat)
    requires OutboxInv(cfg, s) && ClientOk(cfg, s, Client(s, c)) && Client(s, c).Committing?
    ensures NoOutboxRow(s.db, Client(s, c).d.id)
  {
    forall r | 0 <= r < |s.db.outbox| ensures s.db.outbox[r].delivery != Client(s, c).d.id {
      assert Released(cfg, s.db, s.db.outbox[r].delivery, s.db.outbox[r].subject);
    }
  }

  // ----- Ownership

  lemma OwnersAreExclusive(cfg: Config, s: State, v: nat, w: nat, id: nat)
    requires Sound(cfg) && Reachable(cfg, s) && Owns(Worker(s, v), id) && Owns(Worker(s, w), id)
    ensures v == w
  {
    ReachableInv(cfg, s);
  }

  /** The unguarded final update finds the row exactly as this worker's own compare-and-swap wrote it. */
  lemma FinalWriteFindsOwnClaim(cfg: Config, s: State, w: nat)
    requires Sound(cfg) && Reachable(cfg, s) && AtSave(Worker(s, w))
    ensures var pc, t := Worker(s, w), WorkerDoes(cfg, s, w, Save(Applied));
            && pc.d.id in s.db.deliveries && s.db.deliveries[pc.d.id] == pc.base && pc.base.status == Processing
            && t.db.deliveries[pc.d.id] == pc.d && Edge(Processing, pc.d.status)
  {
    ReachableInv(cfg, s);
    assert WorkerOk(cfg, s, s.workers[w]);
  }

  /** While a worker owns a delivery, nothing that any other process does changes the stored row. */
  lemma OwnedRowIsStable(cfg: Config, s: State, a: Action, w: nat, id: nat)
    requires Sound(cfg) && Reachable(cfg, s) && Enabled(cfg, s, a)
    requires Owns(Worker(s, w), id) && !(a.ByWorker? && a.w == w)
    ensures var t := Apply(cfg, s, a);
            && Owns(Worker(t, w), id)
            && id in s.db.deliveries && id in t.db.deliveries && t.db.deliveries[id] == s.db.deliveries[id]
  {
    ReachableInv(cfg, s);
    WorkerAt(cfg, s, w);
    StatusStep(cfg, s, a, id);
    OthersKeepWorker(cfg, s, a, w);
    if a.ByWorker? && Owns(Worker(s, a.w), id) { OwnersAreExclusive(cfg, s, a.w, w, id); }
  }

  lemma OthersKeepWorker(cfg: Config, s: State, a: Action, w: nat)
    requires Enabled(cfg, s, a) && !(a.ByWorker? && a.w == w)
    ensures Worker(Apply(cfg, s, a), w) == Worker(s, w)
  {
    if a.ByWorker? { WorkerFrame(cfg, s, a.w, a.wop); } else { OthersFrame(cfg, s, a); }
  }

  // ----- What never changes

  predicate Identical(s: State, t: State, id: nat) {
    id in s.db.deliveries && id in t.db.deliveries && SameIdentity(t.db.deliveries[id], s.db.deliveries[id])
  }

  lemma IdentityStep(cfg: Config, s: State, a: Action, id: nat)
    requires Inv(cfg, s) && Enabled(cfg, s, a) && id in s.db.deliveries
    ensures Identical(s, Apply(cfg, s, a), id)
  {
    match a
    case ByClient(c, op) =>
      ProcessesAt(cfg, s);
      ClientStatusStep(cfg, s, c, op, id);
    case ByPublisher(p, op) => PublisherFrame(cfg, s, p, op);
    case ByScheduler(k, op) => SchedulerKeepsIdentity(cfg, s, k, op, id);
    case ByWorker(w, op) => WorkerKeepsIdentity(cfg, s, w, op, id);
    case ByReplay(r, op) => ReplayKeepsIdentity(cfg, s, r, op, id);
    case _ =>
  }

  lemma SchedulerKeepsIdentity(cfg: Config, s: State, k: nat, op: SchedulerOp, id: nat)
    requires SchedulerCan(cfg, s, k, op) && id in s.db.deliveries
    ensures var t := SchedulerDoes(cfg, s, k, op); Identical(s, t, id)
  {
  }

  lemma WorkerKeepsIdentity(cfg: Config, s: State, w: nat, op: WorkerOp, id: nat)
    requires WorkerCan(cfg, s, w, op) && id in s.db.deliveries
    ensures var t := WorkerDoes(cfg, s, w, op); Identical(s, t, id)
  {
  }

  lemma ReplayKeepsIdentity(cfg: Config, s: State, r: nat, op: ReplayOp, id: nat)
    requires ReplayCan(cfg, s, r, op) && id in s.db.deliveries
    ensures var t := ReplayDoes(cfg, s, r, op); Identical(s, t, id)
  {
  }

  lemma {:induction false} RunKeepsIdentity(cfg: Config, s: State, acts: seq<Action>, id: nat)
    requires Inv(cfg, s) && RunFrom(cfg, s, acts).Some? && id in s.db.deliveries
    ensures var t := RunFrom(cfg, s, acts).value; Identical(s, t, id)
  {
    if acts != [] {
      var before := acts[..|acts| - 1];
      RunKeepsIdentity(cfg, s, before, id);
      RunKeepsInv(cfg, s, before);
      IdentityStep(cfg, RunFrom(cfg, s, before).value, acts[|acts| - 1], id);
    }
  }

  // ----- The status machine

  /** What one action does to the stored row `id`, and what it finds there, which depends on the deployment. */
  ghost predicate StatusMove(cfg: Config, s: State, t: State, a: Action, id: nat)
    requires id in s.db.deliveries && id in t.db.deliveries
  {
    var x, y := s.db.deliveries[id], t.db.deliveries[id];
    || y == x
    || (a.ByScheduler? && a.sop.Promote? && (cfg.oneScheduler ==> x.status == Pending) && y.status == Queued)
    || (a.ByReplay? && a.rop.Requeue? && x.status != Pending && (Sound(cfg) ==> x.status == Dlq) && y.status == Queued)
    || (a.ByWorker? && a.wop.Claim? && CanStart(x.status) && y.status == Processing)
    || (a.ByWorker? && a.wop.Save? && Owns(Worker(s, a.w), id) && x.status != Pending && (Sound(cfg) ==> x.status == Processing)
        && Edge(Processing, y.status))
  }

  lemma WorkerStatusStep(cfg: Config, s: State, w: nat, op: WorkerOp, id: nat)
    requires WorkerOk(cfg, s, Worker(s, w)) && WorkerCan(cfg, s, w, op) && id in s.db.deliveries
    ensures id in WorkerDoes(cfg, s, w, op).db.deliveries
    ensures StatusMove(cfg, s, WorkerDoes(cfg, s, w, op), ByWorker(w, op), id)
  {
  }

  lemma ClientStatusStep(cfg: Config, s: State, c: nat, op: ClientOp, id: nat)
    requires ClientOk(cfg, s, Client(s, c)) && ClientCan(s, c, op) && id in s.db.deliveries
    ensures id in ClientDoes(cfg, s, c, op).db.deliveries
    ensures ClientDoes(cfg, s, c, op).db.deliveries[id] == s.db.deliveries[id]
  {
  }

  lemma SchedulerStatusStep(cfg: Config, s: State, k: nat, op: SchedulerOp, id: nat)
    requires SchedulerOk(cfg, s, Scheduler(s, k)) && SchedulerCan(cfg, s, k, op) && id in s.db.deliveries
    ensures id in SchedulerDoes(cfg, s, k, op).db.deliveries
    ensures StatusMove(cfg, s, SchedulerDoes(cfg, s, k, op), ByScheduler(k, op), id)
  {
  }

  lemma ReplayStatusStep(cfg: Config, s: State, r: nat, op: ReplayOp, id: nat)
    requires ReplayOk(cfg, s, Replay(s, r)) && ReplayCan(cfg, s, r, op) && id in s.db.deliveries
    ensures id in ReplayDoes(cfg, s, r, op).db.deliveries
    ensures StatusMove(cfg, s, ReplayDoes(cfg, s, r, op), ByReplay(r, op), id)
  {
  }

  lemma ProcessesAt(cfg: Config, s: State)
    requires Inv(cfg, s)
    ensures forall c :: ClientOk(cfg, s, Client(s, c))
    ensures forall k :: SchedulerOk(cfg, s, Scheduler(s, k))
    ensures forall w :: WorkerOk(cfg, s, Worker(s, w))
    ensures forall r :: ReplayOk(cfg, s, Replay(s, r))
  {
  }

  lemma StatusStep(cfg: Config, s: State, a: Action, id: nat)
    requires Inv(cfg, s) && Enabled(cfg, s, a) && id in s.db.deliveries
    ensures id in Apply(cfg, s, a).db.deliveries
    ensures StatusMove(cfg, s, Apply(cfg, s, a), a, id)
  {
    ProcessesAt(cfg, s);
    OneStatusStep(cfg, s, a, id);
  }

  lemma OneStatusStep(cfg: Config, s: State, a: Action, id: nat)
    requires Enabled(cfg, s, a) && id in s.db.deliveries
    requires a.ByClient? ==> ClientOk(cfg, s, Client(s, a.c))
    requires a.ByScheduler? ==> SchedulerOk(cfg, s, Scheduler(s, a.k))
    requires a.ByWorker? ==> WorkerOk(cfg, s, Worker(s, a.w))
    requires a.ByReplay? ==> ReplayOk(cfg, s, Replay(s, a.r))
    ensures id in Apply(cfg, s, a).db.deliveries
    ensures StatusMove(cfg, s, Apply(cfg, s, a), a, id)
  {
    match a
    case ByPublisher(p, op) => PublisherFrame(cfg, s, p, op);
    case ByClient(c, op) => ClientStatusStep(cfg, s, c, op, id);
    case ByScheduler(k, op) => SchedulerStatusStep(cfg, s, k, op, id);
    case ByWorker(w, op) => WorkerStatusStep(cfg, s, w, op, id);
    case ByReplay(r, op) => ReplayStatusStep(cfg, s, r, op, id);
    case _ =>
  }

  /** Every persisted status change, in any run, is an edge of the status machine; only a replay leaves a terminal status. */
  lemma StatusChangesAreEdges(cfg: Config, s: State, a: Action, id: nat)
    requires Sound(cfg) && Reachable(cfg, s) && Enabled(cfg, s, a) && id in s.db.deliveries
    ensures var t := Apply(cfg, s, a);
            && id in t.db.deliveries
            && var x, y := s.db.deliveries[id].status, t.db.deliveries[id].status;
               && (x != y ==> Edge(x, y))
               && (IsTerminal(x) && y != x ==> x == Dlq && a.ByReplay? && a.rop.Requeue?)
  {
    ReachableInv(cfg, s);
    StatusStep(cfg, s, a, id);
    MoveIsEdge(cfg, s, Apply(cfg, s, a), a, id);
  }

  lemma MoveIsEdge(cfg: Config, s: State, t: State, a: Action, id: nat)
    requires Sound(cfg) && id in s.db.deliveries && id in t.db.deliveries && StatusMove(cfg, s, t, a, id)
    ensures var x, y := s.db.deliveries[id].status, t.db.deliveries[id].status;
            && (x != y ==> Edge(x, y))
            && (IsTerminal(x) && y != x ==> x == Dlq && a.ByReplay? && a.rop.Requeue?)
  {
  }

  /** Failed, cancelled and rejected are never stored, in any deployment. */
  lemma UnusedStatuses(cfg: Config, s: State, id: nat)
    requires Reachable(cfg, s) && id in s.db.deliveries
    ensures s.db.deliveries[id].status !in {Failed, Cancelled, Rejected}
  {
    ReachableInv(cfg, s);
    assert RowOk(cfg, s, id);
  }

  /** Succeeded is absorbing: the row never changes again. */
  lemma {:induction false} SucceededForever(cfg: Config, s: State, acts: seq<Action>, id: nat)
    requires Sound(cfg) && Reachable(cfg, s) && HasStatus(s.db, id, Succeeded) && RunFrom(cfg, s, acts).Some?
    ensures var t := RunFrom(cfg, s, acts).value;
            id in t.db.deliveries && t.db.deliveries[id] == s.db.deliveries[id]
  {
    if acts != [] {
      var before, a := acts[..|acts| - 1], acts[|acts| - 1];
      SucceededForever(cfg, s, before, id);
      ReachableInv(cfg, s);
      RunKeepsInv(cfg, s, before);
      StatusStep(cfg, RunFrom(cfg, s, before).value, a, id);
    }
  }

  // ----- Retries

  /** Stored rows and every worker's snapshot, however stale, stay below the limit, so backoff sees 1 .. maxAttempts - 1. */
  lemma RetryCountBound(cfg: Config, s: State)
    requires Reachable(cfg, s)
    ensures forall id :: id in s.db.deliveries ==> 0 <= s.db.deliveries[id].retryCount < RetryLimit(cfg)
    ensures forall w :: w in s.workers && (s.workers[w].Claiming? || s.workers[w].Owning?) ==>
              0 <= s.workers[w].d.retryCount < RetryLimit(cfg)
    ensures forall w :: w in s.workers && s.workers[w].Owning? && s.workers[w].stage == SavingRetry ==>
              1 <= s.workers[w].d.retryCount <= cfg.maxAttempts - 1
  {
    ReachableInv(cfg, s);
    forall id | id in s.db.deliveries ensures 0 <= s.db.deliveries[id].retryCount < RetryLimit(cfg) {
      assert RowOk(cfg, s, id);
    }
    forall w | w in s.workers && s.workers[w].Owning? ensures 0 <= s.workers[w].d.retryCount {
      assert WorkerOk(cfg, s, s.workers[w]);
    }
  }

  // ----- Orphans

  /** A delivery stored as processing that no worker owns. */
  ghost predicate Orphan(s: State, id: nat) {
    HasStatus(s.db, id, Processing) && forall w :: !Owns(Worker(s, w), id)
  }

  lemma OrphanStep(cfg: Config, s: State, a: Action, id: nat)
    requires Sound(cfg) && Inv(cfg, s) && Enabled(cfg, s, a) && Orphan(s, id)
    ensures Orphan(Apply(cfg, s, a), id)
    ensures Apply(cfg, s, a).db.deliveries[id] == s.db.deliveries[id]
  {
    var t := Apply(cfg, s, a);
    StatusStep(cfg, s, a, id);
    assert !Owns(Worker(s, if a.ByWorker? then a.w else 0), id);
    forall w ensures !Owns(Worker(t, w), id) {
      assert !Owns(Worker(s, w), id);
      if a.ByWorker? && a.w == w {
        WorkerAt(cfg, s, w);
        NoNewOwner(cfg, s, w, a.wop, id);
      } else {
        OthersKeepWorker(cfg, s, a, w);
      }
    }
  }

  lemma NoNewOwner(cfg: Config, s: State, w: nat, op: WorkerOp, id: nat)
    requires WorkerOk(cfg, s, Worker(s, w)) && WorkerCan(cfg, s, w, op)
    requires HasStatus(s.db, id, Processing) && !Owns(Worker(s, w), id)
    ensures !Owns(Worker(WorkerDoes(cfg, s, w, op), w), id)
  {
  }

  /** Only an owner calls the provider. */
  lemma OnlyOwnersSend(cfg: Config, s: State, a: Action, id: nat)
    requires Enabled(cfg, s, a) && forall w :: !Owns(Worker(s, w), id)
    ensures s.log.sends <= Apply(cfg, s, a).log.sends
    ensures forall i :: |s.log.sends| <= i < |Apply(cfg, s, a).log.sends| ==> Apply(cfg, s, a).log.sends[i].delivery != id
  {
    if a.ByWorker? { assert !Owns(Worker(s, a.w), id); }
  }

  /**
    An orphaned delivery is never recovered: whatever is redelivered or replayed, the row stays
    as it is and the provider is not called for it again.
  */
  lemma {:induction false} OrphanForever(cfg: Config, s: State, acts: seq<Action>, id: nat)
    requires Sound(cfg) && Reachable(cfg, s) && Orphan(s, id) && RunFrom(cfg, s, acts).Some?
    ensures var t := RunFrom(cfg, s, acts).value;
            && Orphan(t, id) && t.db.deliveries[id] == s.db.deliveries[id]
            && |s.log.sends| <= |t.log.sends|
            && forall i :: |s.log.sends| <= i < |t.log.sends| ==> t.log.sends[i].delivery != id
  {
    if acts != [] {
      var before, a := acts[..|acts| - 1], acts[|acts| - 1];
      OrphanForever(cfg, s, before, id);
      ReachableInv(cfg, s);
      RunKeepsInv(cfg, s, before);
      var m := RunFrom(cfg, s, before).value;
      OrphanStep(cfg, m, a, id);
      OnlyOwnersSend(cfg, m, a, id);
    }
  }

  /** A crash while owning is what makes an orphan. */
  lemma CrashOrphans(cfg: Config, s: State, w: nat, id: nat)
    requires Sound(cfg) && Reachable(cfg, s) && Owns(Worker(s, w), id)
    ensures Orphan(WorkerDoes(cfg, s, w, Crash), id)
  {
    ReachableInv(cfg, s);
    assert WorkerOk(cfg, s, s.workers[w]);
  }
}
