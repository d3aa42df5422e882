/**
  No work is lost: as long as no process fails in one of the few places where a
  delivery depends on it alone, every unfinished delivery has a carrier, something
  that will bring it to a worker again.
*/
module Carriers {
  import opened Wrappers
  import opened Notification
  import opened Protocol
  import opened Frames
  import opened Safety
  import opened Guarantees

  // ----- Failures that strand a delivery

  /** A worker stops while it owns a delivery, without having stored an outcome. */
  predicate StrandsProcessing(s: State, w: nat, op: WorkerOp) {
    var pc := Worker(s, w);
    || (op.Crash? && pc.Owning?)
    || (op.Claim? && pc.Claiming? && op.write.Unacknowledged? && HasStatus(s.db, pc.d.id, pc.prev))
    || (op.Record? && pc.Owning? && !op.write.Applied?)
    || (op.Save? && op.write.Lost?)
  }

  /** The scheduler stops after a promotion, without having enqueued the delivery. */
  predicate StrandsPromoted(s: State, k: nat, op: SchedulerOp) {
    || (op.Restart? && Scheduler(s, k).Enqueuing?)
    || (op.Enqueue? && op.write.Lost?)
    || (op.Promote? && op.write.Unacknowledged?)
  }

  /** A replay stops after writing the delivery back, without having announced it. */
  predicate StrandsReplayed(s: State, r: nat, op: ReplayOp) {
    || (op.Abort? && Replay(s, r).Announcing?)
    || (op.Announce? && op.write.Lost?)
    || (op.Requeue? && op.write.Unacknowledged?)
  }

  predicate Strands(s: State, a: Action) {
    match a
    case ByWorker(w, op) => StrandsProcessing(s, w, op)
    case ByScheduler(k, op) => StrandsPromoted(s, k, op)
    case ByReplay(r, op) => StrandsReplayed(s, r, op)
    case _ => false
  }

  /** No action of the run strands a delivery; every other failure may occur. */
  ghost predicate Unstranded(cfg: Config, s: State, acts: seq<Action>)
    requires RunFrom(cfg, s, acts).Some?
  {
    acts == [] ||
    var before := acts[..|acts| - 1];
    Unstranded(cfg, s, before) && !Strands(RunFrom(cfg, s, before).value, acts[|acts| - 1])
  }

  /** A set of states that holds the initial state and that no step leaves, but for a stranding failure. */
  ghost predicate Closed(cfg: Config, p: iset<State>) {
    && INIT in p
    && (forall s, a :: s in p && Enabled(cfg, s, a) && !Strands(s, a) ==> Apply(cfg, s, a) in p)
  }

  /** The least such set. */
  ghost predicate Calm(cfg: Config, s: State) {
    forall p :: Closed(cfg, p) ==> s in p
  }

  lemma InitIsCalm(cfg: Config)
    ensures Calm(cfg, INIT)
  {
  }

  lemma CalmStep(cfg: Config, s: State, a: Action)
    requires Calm(cfg, s) && Enabled(cfg, s, a) && !Strands(s, a)
    ensures Calm(cfg, Apply(cfg, s, a))
  {
    forall p | Closed(cfg, p) ensures Apply(cfg, s, a) in p {
      assert s in p;
    }
  }

  /** Calm states are those that runs without stranding failures reach. */
  lemma CalmRun(cfg: Config, s: State) returns (acts: seq<Action>)
    requires Calm(cfg, s)
    ensures RunFrom(cfg, INIT, acts) == Some(s) && Unstranded(cfg, INIT, acts)
  {
    var p := iset t | ReachedUnstranded(cfg, t);
    assert ReachedUnstranded(cfg, INIT) by {
      assert RunFrom(cfg, INIT, []) == Some(INIT) && Unstranded(cfg, INIT, []);
    }
    forall t, a | t in p && Enabled(cfg, t, a) && !Strands(t, a) ensures Apply(cfg, t, a) in p {
      UnstrandedStep(cfg, t, a);
    }
    assert Closed(cfg, p);
    acts :| RunFrom(cfg, INIT, acts) == Some(s) && Unstranded(cfg, INIT, acts);
  }

  ghost predicate ReachedUnstranded(cfg: Config, s: State) {
    exists acts :: RunFrom(cfg, INIT, acts) == Some(s) && Unstranded(cfg, INIT, acts)
  }

  lemma UnstrandedStep(cfg: Config, s: State, a: Action)
    requires ReachedUnstranded(cfg, s) && Enabled(cfg, s, a) && !Strands(s, a)
    ensures ReachedUnstranded(cfg, Apply(cfg, s, a))
  {
    var acts :| RunFrom(cfg, INIT, acts) == Some(s) && Unstranded(cfg, INIT, acts);
    RunSnoc(cfg, INIT, acts, s, a);
    assert (acts + [a])[..|acts|] == acts;
  }

  lemma CalmByWorker(cfg: Config, s: State, w: nat, op: WorkerOp)
    requires Calm(cfg, s) && WorkerCan(cfg, s, w, op) && !StrandsProcessing(s, w, op)
    ensures Calm(cfg, WorkerDoes(cfg, s, w, op))
  {
    CalmStep(cfg, s, ByWorker(w, op));
  }

  lemma CalmByClient(cfg: Config, s: State, c: nat, op: ClientOp)
    requires Calm(cfg, s) && ClientCan(s, c, op)
    ensures Calm(cfg, ClientDoes(cfg, s, c, op))
  {
    CalmStep(cfg, s, ByClient(c, op));
  }

  lemma CalmByPublisher(cfg: Config, s: State, p: nat, op: PublisherOp)
    requires Calm(cfg, s) && PublisherCan(s, p, op)
    ensures Calm(cfg, PublisherDoes(cfg, s, p, op))
  {
    CalmStep(cfg, s, ByPublisher(p, op));
  }

  lemma CalmByScheduler(cfg: Config, s: State, k: nat, op: SchedulerOp)
    requires Calm(cfg, s) && SchedulerCan(cfg, s, k, op) && !StrandsPromoted(s, k, op)
    ensures Calm(cfg, SchedulerDoes(cfg, s, k, op))
  {
    CalmStep(cfg, s, ByScheduler(k, op));
  }

  lemma CalmByReplay(cfg: Config, s: State, r: nat, op: ReplayOp)
    requires Calm(cfg, s) && ReplayCan(cfg, s, r, op) && !StrandsReplayed(s, r, op)
    ensures Calm(cfg, ReplayDoes(cfg, s, r, op))
  {
    CalmStep(cfg, s, ByReplay(r, op));
  }

  // ----- Carriers

  /** The worker will hand its copy back, or compete for the delivery in the status it has now. */
  predicate HolderSafe(db: Db, id: nat, pc: WorkerPc) {
    match pc
    case Claiming(_, _, prev) => HasStatus(db, id, prev)
    case Closing(_, _, _, rest) => rest == RecordingRetry
    case Replying(_, ack) => !ack
    case _ => true
  }

  ghost predicate SafeCopy(cfg: Config, s: State, id: nat, c: Copy) {
    && Outstanding(cfg, s.bus, c) && s.bus.stream[c.msg].delivery == id
    && forall w :: w in s.workers && !s.workers[w].Free? && s.workers[w].copy == c ==> HolderSafe(s.db, id, s.workers[w])
  }

  ghost predicate HasSafeCopy(cfg: Config, s: State, id: nat) {
    exists c :: SafeCopy(cfg, s, id, c)
  }

  /** An unpublished outbox row that no publisher is about to mark. */
  ghost predicate OpenRow(s: State, id: nat, r: nat) {
    && r < |s.db.outbox| && s.db.outbox[r].delivery == id && !s.db.outbox[r].published
    && forall p :: p in s.publishers ==> !(s.publishers[p].Marking? && s.publishers[p].row == r)
  }

  ghost predicate HasOpenRow(s: State, id: nat) {
    exists r :: OpenRow(s, id, r)
  }

  predicate BeingEnqueued(s: State, id: nat) {
    Scheduler(s, 0).Enqueuing? && Scheduler(s, 0).d.id == id
  }

  ghost predicate BeingAnnounced(s: State, id: nat) {
    exists r :: r in s.replays && s.replays[r].Announcing? && s.replays[r].id == id
  }

  ghost predicate HasOwner(s: State, id: nat) {
    exists w :: w in s.workers && Owns(s.workers[w], id)
  }

  /** The delivery is finished, or something will carry it on. */
  ghost predicate Carried(cfg: Config, s: State, id: nat) {
    id in s.db.deliveries ==>
      match s.db.deliveries[id].status
      case Pending => id in s.db.scheduled && !s.db.scheduled[id].processed
      case Queued => HasOpenRow(s, id) || BeingEnqueued(s, id) || BeingAnnounced(s, id) || HasSafeCopy(cfg, s, id)
      case Retrying => HasSafeCopy(cfg, s, id)
      case Processing => HasOwner(s, id)
      case _ => true
  }

  /** Copies are acknowledged only after they exist. */
  ghost predicate AcksInv(s: State) {
    forall c :: c in s.bus.acked ==> c.msg < |s.bus.stream|
  }

  /** And they are held by one worker at a time. */
  ghost predicate HoldInv(cfg: Config, s: State) {
    && AcksInv(s)
    && (forall w :: w in s.workers && !s.workers[w].Free? ==> s.workers[w].copy !in s.bus.acked)
    && (forall v, w | v in s.workers && w in s.workers && !s.workers[v].Free? && !s.workers[w].Free? ::
          s.workers[v].copy == s.workers[w].copy ==> v == w)
  }

  predicate NoneRetries(s: State) {
    forall id :: id in s.db.deliveries ==> s.db.deliveries[id].status != Retrying
  }

  /** What keeps the copy of a delivery that is to be retried: nobody else holds it, or there is no such delivery. */
  ghost predicate CopiesInv(cfg: Config, s: State) {
    AcksInv(s) && if cfg.exclusiveHold then HoldInv(cfg, s) else NoneRetries(s)
  }

  ghost predicate CarriedInv(cfg: Config, s: State) {
    CopiesInv(cfg, s) && forall id :: Carried(cfg, s, id)
  }

  /** A deployment in which something can be delivered at all. */
  predicate Live(cfg: Config) {
    cfg.consumers != {} && cfg.batch > 0
  }

  /** The deployments in which work is never lost. */
  predicate Holding(cfg: Config) {
    cfg.oneScheduler && (cfg.exclusiveHold || cfg.maxAttempts <= 1) && cfg.consumers != {}
  }

  // ----- Workers

  lemma WorkerKeepsHold(cfg: Config, s: State, w: nat, op: WorkerOp)
    requires cfg.exclusiveHold && WorkerOk(cfg, s, Worker(s, w)) && HoldInv(cfg, s) && WorkerCan(cfg, s, w, op)
    ensures HoldInv(cfg, WorkerDoes(cfg, s, w, op))
  {
  }

  /** A copy that carries an unfinished delivery survives a step that leaves its row alone. */
  lemma WorkerKeepsCopy(cfg: Config, s: State, w: nat, op: WorkerOp, id: nat, c: Copy)
    requires WorkerOk(cfg, s, Worker(s, w)) && WorkerCan(cfg, s, w, op)
    requires id in s.db.deliveries && CanStart(s.db.deliveries[id].status) && SafeCopy(cfg, s, id, c)
    requires var t := WorkerDoes(cfg, s, w, op);
             id in t.db.deliveries && t.db.deliveries[id] == s.db.deliveries[id]
    ensures SafeCopy(cfg, WorkerDoes(cfg, s, w, op), id, c)
  {
  }

  lemma OwnerStays(cfg: Config, s: State, w: nat, op: WorkerOp, id: nat)
    requires WorkersInv(cfg, s) && WorkerCan(cfg, s, w, op) && !StrandsProcessing(s, w, op)
    requires HasStatus(s.db, id, Processing) && HasOwner(s, id)
    requires WorkerDoes(cfg, s, w, op).db.deliveries[id] == s.db.deliveries[id]
    ensures HasOwner(WorkerDoes(cfg, s, w, op), id)
  {
    var t := WorkerDoes(cfg, s, w, op);
    var v :| v in s.workers && Owns(s.workers[v], id);
    WorkerFrame(cfg, s, w, op);
    if v == w {
      assert WorkerOk(cfg, s, s.workers[w]);
      OwnerGoesOn(cfg, s, w, op, id);
    }
    assert v in t.workers && Owns(t.workers[v], id);
  }

  /** An owner that does not stop stores an outcome before it lets go. */
  lemma OwnerGoesOn(cfg: Config, s: State, w: nat, op: WorkerOp, id: nat)
    requires WorkerOk(cfg, s, Worker(s, w)) && WorkerCan(cfg, s, w, op) && !StrandsProcessing(s, w, op)
    requires HasStatus(s.db, id, Processing) && Owns(Worker(s, w), id)
    requires WorkerDoes(cfg, s, w, op).db.deliveries[id] == s.db.deliveries[id]
    ensures Owns(Worker(WorkerDoes(cfg, s, w, op), w), id)
  {
  }

  /** A worker that stores a delivery as retrying keeps its own copy, and hands it back. */
  lemma RetryKeepsOwnCopy(cfg: Config, s: State, w: nat, write: Write)
    requires cfg.exclusiveHold && WorkerOk(cfg, s, Worker(s, w)) && HoldInv(cfg, s)
    requires AtSave(Worker(s, w)) && Worker(s, w).stage == SavingRetry
    ensures SafeCopy(cfg, AfterSave(s, w, write), Worker(s, w).d.id, Worker(s, w).copy)
  {
  }

  lemma QueuedWorkerStep(cfg: Config, s: State, w: nat, op: WorkerOp, id: nat)
    requires WorkerOk(cfg, s, Worker(s, w)) && WorkerCan(cfg, s, w, op)
    requires Carried(cfg, s, id) && id in s.db.deliveries && CanStart(s.db.deliveries[id].status)
    requires var t := WorkerDoes(cfg, s, w, op);
             id in t.db.deliveries && t.db.deliveries[id] == s.db.deliveries[id]
    ensures Carried(cfg, WorkerDoes(cfg, s, w, op), id)
  {
    var t := WorkerDoes(cfg, s, w, op);
    if HasSafeCopy(cfg, s, id) {
      var c :| SafeCopy(cfg, s, id, c);
      WorkerKeepsCopy(cfg, s, w, op, id, c);
    } else {
      OtherCarriersKept(s, t, id);
    }
  }

  lemma OtherCarriersKept(s: State, t: State, id: nat)
    requires t.db.outbox == s.db.outbox && t.publishers == s.publishers
    requires t.schedulers == s.schedulers && t.replays == s.replays
    ensures HasOpenRow(s, id) ==> HasOpenRow(t, id)
    ensures BeingEnqueued(s, id) ==> BeingEnqueued(t, id)
    ensures BeingAnnounced(s, id) ==> BeingAnnounced(t, id)
  {
    if HasOpenRow(s, id) {
      var r :| OpenRow(s, id, r);
      assert OpenRow(t, id, r);
    }
  }

  lemma WorkerKeepsCarried(cfg: Config, s: State, w: nat, op: WorkerOp, id: nat)
    requires Holding(cfg) && Inv(cfg, s) && CarriedInv(cfg, s)
    requires WorkerCan(cfg, s, w, op) && !StrandsProcessing(s, w, op)
    ensures Carried(cfg, WorkerDoes(cfg, s, w, op), id)
  {
    var t := WorkerDoes(cfg, s, w, op);
    if id in s.db.deliveries {
      assert Carried(cfg, s, id);
      WorkerAt(cfg, s, w);
      WorkerStatusStep(cfg, s, w, op, id);
      CarriedWorkerStep(cfg, s, w, op, id);
    } else {
      WorkerFrame(cfg, s, w, op);
    }
  }

  lemma CarriedWorkerStep(cfg: Config, s: State, w: nat, op: WorkerOp, id: nat)
    requires Holding(cfg) && WorkersInv(cfg, s) && CopiesInv(cfg, s) && Carried(cfg, s, id)
    requires WorkerCan(cfg, s, w, op) && !StrandsProcessing(s, w, op)
    requires id in s.db.deliveries && id in WorkerDoes(cfg, s, w, op).db.deliveries
    requires StatusMove(cfg, s, WorkerDoes(cfg, s, w, op), ByWorker(w, op), id)
    ensures Carried(cfg, WorkerDoes(cfg, s, w, op), id)
  {
    var t := WorkerDoes(cfg, s, w, op);
    WorkerAt(cfg, s, w);
    var x, y := s.db.deliveries[id], t.db.deliveries[id];
    if y == x {
      if CanStart(x.status) {
        QueuedWorkerStep(cfg, s, w, op, id);
      } else if x.status == Processing {
        OwnerStays(cfg, s, w, op, id);
      } else {
        WorkerFrame(cfg, s, w, op);
      }
    } else if op.Claim? {
      assert Owns(t.workers[w], id);
    } else if y.status == Retrying {
      RetryKeepsOwnCopy(cfg, s, w, op.write);
    }
  }

  // ----- The other processes

  /** Nothing that these processes do touches workers, or takes a copy away. */
  ghost predicate CopiesKept(s: State, t: State) {
    && t.workers == s.workers && t.bus.acked == s.bus.acked
    && s.bus.stream <= t.bus.stream
  }

  lemma HoldKept(cfg: Config, s: State, t: State)
    requires HoldInv(cfg, s) && CopiesKept(s, t)
    ensures HoldInv(cfg, t)
  {
  }

  lemma SafeCopyKept(cfg: Config, s: State, t: State, id: nat)
    requires CopiesKept(s, t) && HasSafeCopy(cfg, s, id)
    requires id in s.db.deliveries && id in t.db.deliveries && t.db.deliveries[id] == s.db.deliveries[id]
    ensures HasSafeCopy(cfg, t, id)
  {
    var c :| SafeCopy(cfg, s, id, c);
    assert SafeCopy(cfg, t, id, c);
  }

  lemma OwnerKept(s: State, t: State, id: nat)
    requires t.workers == s.workers && HasOwner(s, id)
    ensures HasOwner(t, id)
  {
    var w :| w in s.workers && Owns(s.workers[w], id);
    assert w in t.workers && Owns(t.workers[w], id);
  }

  /** A new message is a safe copy for every consumer. */
  lemma NewMessageIsSafe(cfg: Config, s: State, t: State, id: nat)
    requires cfg.consumers != {} && AcksInv(s) && WorkersInv(cfg, s)
    requires t.workers == s.workers && t.bus.acked == s.bus.acked
    requires |t.bus.stream| == |s.bus.stream| + 1 && t.bus.stream[|s.bus.stream|].delivery == id
    ensures HasSafeCopy(cfg, t, id)
  {
    var c :| c in cfg.consumers;
    var copy := Copy(c, |s.bus.stream|);
    forall w | w in s.workers && !s.workers[w].Free? ensures s.workers[w].copy != copy {
      assert WorkerOk(cfg, s, s.workers[w]);
    }
    assert SafeCopy(cfg, t, id, copy);
  }

  /** A step outside the workers that keeps the row of `id` keeps its carrier, provided a queued delivery's other carriers are kept. */
  lemma BystanderKeepsCarried(cfg: Config, s: State, t: State, id: nat)
    requires CopiesKept(s, t) && Carried(cfg, s, id)
    requires id in s.db.deliveries && id in t.db.deliveries && t.db.deliveries[id] == s.db.deliveries[id]
    requires s.db.deliveries[id].status == Pending ==> id in t.db.scheduled && !t.db.scheduled[id].processed
    requires s.db.deliveries[id].status == Queued ==>
               && (HasOpenRow(s, id) ==> HasOpenRow(t, id) || HasSafeCopy(cfg, t, id))
               && (BeingEnqueued(s, id) ==> BeingEnqueued(t, id) || HasOpenRow(t, id))
               && (BeingAnnounced(s, id) ==> BeingAnnounced(t, id) || HasSafeCopy(cfg, t, id))
    ensures Carried(cfg, t, id)
  {
    if HasSafeCopy(cfg, s, id) { SafeCopyKept(cfg, s, t, id); }
    if HasOwner(s, id) { OwnerKept(s, t, id); }
  }

  lemma OpenRowKept(s: State, t: State, id: nat)
    requires HasOpenRow(s, id) && s.db.outbox <= t.db.outbox && t.publishers == s.publishers
    ensures HasOpenRow(t, id)
  {
    var r :| OpenRow(s, id, r);
    assert OpenRow(t, id, r);
  }

  lemma AnnouncedStill(s: State, t: State, id: nat)
    requires BeingAnnounced(s, id) && t.replays == s.replays
    ensures BeingAnnounced(t, id)
  {
    var r :| r in s.replays && s.replays[r].Announcing? && s.replays[r].id == id;
    assert t.replays[r].Announcing?;
  }

  lemma ClientKeepsCarried(cfg: Config, s: State, c: nat, op: ClientOp, id: nat)
    requires Inv(cfg, s) && CarriedInv(cfg, s) && ClientCan(s, c, op)
    ensures Carried(cfg, ClientDoes(cfg, s, c, op), id)
  {
    var t := ClientDoes(cfg, s, c, op);
    assert Carried(cfg, s, id);
    assert ClientOk(cfg, s, Client(s, c));
    ClientFrame(cfg, s, c, op);
    if id in s.db.deliveries {
      ClientStatusStep(cfg, s, c, op, id);
      if id in s.db.scheduled { ClientKeepsSchedule(cfg, s, c, op, id); }
      if HasOpenRow(s, id) { OpenRowKept(s, t, id); }
      if BeingAnnounced(s, id) { AnnouncedStill(s, t, id); }
      BystanderKeepsCarried(cfg, s, t, id);
    } else if id in t.db.deliveries {
      FreshRowIsOpen(cfg, s, c, id);
    }
  }

  lemma ClientKeepsSchedule(cfg: Config, s: State, c: nat, op: ClientOp, id: nat)
    requires ClientOk(cfg, s, Client(s, c)) && ClientCan(s, c, op) && id in s.db.scheduled
    ensures id in ClientDoes(cfg, s, c, op).db.scheduled
    ensures ClientDoes(cfg, s, c, op).db.scheduled[id] == s.db.scheduled[id]
  {
    if op.Commit? && Client(s, c).d.key !in s.db.keys { CommitStores(cfg, s, c); } else { ClientFrame(cfg, s, c, op); }
  }

  lemma FreshRowIsOpen(cfg: Config, s: State, c: nat, id: nat)
    requires PublishersInv(s) && Client(s, c).Committing? && ClientOk(cfg, s, Client(s, c))
    requires id !in s.db.deliveries && id in AfterCommit(cfg, s, c).db.deliveries
    ensures Carried(cfg, AfterCommit(cfg, s, c), id)
  {
    var d, t := Client(s, c).d, AfterCommit(cfg, s, c);
    CommitStores(cfg, s, c);
    assert t.db.deliveries[id] == d;
    if d.status == Queued {
      assert t.db.outbox[|s.db.outbox|] == OutboxRow(id, SubjectOf(cfg, d), false, 0);
      NewRowIsOpen(s, t, id);
    }
  }

  lemma NewRowIsOpen(s: State, t: State, id: nat)
    requires PublishersInv(s) && t.publishers == s.publishers && |t.db.outbox| == |s.db.outbox| + 1
    requires t.db.outbox[|s.db.outbox|].delivery == id && !t.db.outbox[|s.db.outbox|].published
    ensures HasOpenRow(t, id)
  {
    forall p | p in s.publishers ensures s.publishers[p].Marking? ==> s.publishers[p].row < |s.db.outbox| {
      assert PublisherOk(s, s.publishers[p]);
    }
    assert OpenRow(t, id, |s.db.outbox|);
  }

  // ----- Publishers

  /** Every open row stays open, but for one that has just become a message. */
  lemma PublisherKeepsRow(cfg: Config, s: State, p: nat, op: PublisherOp, id: nat, r: nat)
    requires cfg.oneScheduler && OutboxInv(cfg, s) && PublisherOk(s, Publisher(s, p)) && PublisherCan(s, p, op) && OpenRow(s, id, r)
    ensures var t := PublisherDoes(cfg, s, p, op);
            || OpenRow(t, id, r)
            || (op == Publish(Applied) && |t.bus.stream| == |s.bus.stream| + 1 && t.bus.stream[|s.bus.stream|].delivery == id)
  {
    if op.Check? { CheckKeepsRow(cfg, s, p, op.ok, id, r); } else { OtherwiseKeepsRow(cfg, s, p, op, id, r); }
  }

  /** A check leads to a mark only if another row of the delivery, hence the same row, is published. */
  lemma CheckKeepsRow(cfg: Config, s: State, p: nat, ok: bool, id: nat, r: nat)
    requires cfg.oneScheduler && OutboxInv(cfg, s) && PublisherCan(s, p, Check(ok)) && OpenRow(s, id, r)
    ensures OpenRow(PublisherDoes(cfg, s, p, Check(ok)), id, r)
  {
    var pc := AfterCheck(s, p, ok);
    if pc.Marking? {
      var q :| 0 <= q < |s.db.outbox| && s.db.outbox[q].delivery == s.db.outbox[pc.row].delivery && s.db.outbox[q].published;
      assert q == pc.row;
    }
  }

  lemma OtherwiseKeepsRow(cfg: Config, s: State, p: nat, op: PublisherOp, id: nat, r: nat)
    requires PublisherOk(s, Publisher(s, p)) && PublisherCan(s, p, op) && OpenRow(s, id, r) && !op.Check?
    ensures var t := PublisherDoes(cfg, s, p, op);
            || OpenRow(t, id, r)
            || (op == Publish(Applied) && |t.bus.stream| == |s.bus.stream| + 1 && t.bus.stream[|s.bus.stream|].delivery == id)
  {
  }

  lemma PublisherKeepsCarried(cfg: Config, s: State, p: nat, op: PublisherOp, id: nat)
    requires Holding(cfg) && Inv(cfg, s) && CarriedInv(cfg, s) && PublisherCan(s, p, op)
    ensures Carried(cfg, PublisherDoes(cfg, s, p, op), id)
  {
    var t := PublisherDoes(cfg, s, p, op);
    assert Carried(cfg, s, id);
    PublisherFrame(cfg, s, p, op);
    if id in s.db.deliveries {
      if HasOpenRow(s, id) {
        var r :| OpenRow(s, id, r);
        assert PublisherOk(s, Publisher(s, p));
        PublisherKeepsRow(cfg, s, p, op, id, r);
        if !OpenRow(t, id, r) { NewMessageIsSafe(cfg, s, t, id); }
      }
      if BeingAnnounced(s, id) { AnnouncedStill(s, t, id); }
      BystanderKeepsCarried(cfg, s, t, id);
    }
  }

  // ----- The scheduler

  lemma SchedulerKeepsEnqueuing(cfg: Config, s: State, k: nat, op: SchedulerOp, id: nat)
    requires cfg.oneScheduler && PublishersInv(s) && SchedulersInv(cfg, s) && SchedulerCan(cfg, s, k, op) && !StrandsPromoted(s, k, op)
    requires BeingEnqueued(s, id)
    ensures BeingEnqueued(SchedulerDoes(cfg, s, k, op), id) || HasOpenRow(SchedulerDoes(cfg, s, k, op), id)
  {
    var t := SchedulerDoes(cfg, s, k, op);
    forall p | p in s.publishers ensures s.publishers[p].Marking? ==> s.publishers[p].row < |s.db.outbox| {
      assert PublisherOk(s, s.publishers[p]);
    }
    if op.Enqueue? && k == 0 { assert OpenRow(t, id, |s.db.outbox|); }
  }

  lemma PromotedIsEnqueuing(cfg: Config, s: State, k: nat, op: SchedulerOp, id: nat)
    requires cfg.oneScheduler && SchedulersInv(cfg, s) && SchedulerCan(cfg, s, k, op) && !StrandsPromoted(s, k, op)
    requires id in s.db.deliveries && SchedulerDoes(cfg, s, k, op).db.deliveries[id] != s.db.deliveries[id]
    ensures BeingEnqueued(SchedulerDoes(cfg, s, k, op), id)
  {
    assert SchedulerOk(cfg, s, Scheduler(s, k));
  }

  lemma SchedulerKeepsCarried(cfg: Config, s: State, k: nat, op: SchedulerOp, id: nat)
    requires Holding(cfg) && Inv(cfg, s) && CarriedInv(cfg, s) && SchedulerCan(cfg, s, k, op) && !StrandsPromoted(s, k, op)
    ensures Carried(cfg, SchedulerDoes(cfg, s, k, op), id)
  {
    var t := SchedulerDoes(cfg, s, k, op);
    assert Carried(cfg, s, id);
    SchedulerFrame(cfg, s, k, op);
    if id in s.db.deliveries {
      assert SchedulerOk(cfg, s, Scheduler(s, k));
      SchedulerStatusStep(cfg, s, k, op, id);
      if t.db.deliveries[id] != s.db.deliveries[id] {
        PromotedIsEnqueuing(cfg, s, k, op, id);
      } else {
        if HasOpenRow(s, id) { OpenRowKept(s, t, id); }
        if BeingEnqueued(s, id) { SchedulerKeepsEnqueuing(cfg, s, k, op, id); }
        if BeingAnnounced(s, id) { AnnouncedStill(s, t, id); }
        SchedulerKeepsPending(cfg, s, k, op, id);
        BystanderKeepsCarried(cfg, s, t, id);
      }
    }
  }

  lemma SchedulerKeepsPending(cfg: Config, s: State, k: nat, op: SchedulerOp, id: nat)
    requires SchedulerOk(cfg, s, Scheduler(s, k)) && SchedulerCan(cfg, s, k, op)
    requires HasStatus(s.db, id, Pending) ==> id in s.db.scheduled && !s.db.scheduled[id].processed
    ensures var t := SchedulerDoes(cfg, s, k, op);
            HasStatus(s.db, id, Pending) ==> id in t.db.scheduled && !t.db.scheduled[id].processed
  {
  }

  // ----- Replays

  lemma ReplayKeepsAnnouncing(cfg: Config, s: State, r: nat, op: ReplayOp, id: nat)
    requires cfg.consumers != {} && AcksInv(s) && WorkersInv(cfg, s) && ReplayCan(cfg, s, r, op) && !StrandsReplayed(s, r, op)
    requires BeingAnnounced(s, id)
    ensures BeingAnnounced(ReplayDoes(cfg, s, r, op), id) || HasSafeCopy(cfg, ReplayDoes(cfg, s, r, op), id)
  {
    var t := ReplayDoes(cfg, s, r, op);
    var q :| q in s.replays && s.replays[q].Announcing? && s.replays[q].id == id;
    if q != r {
      assert t.replays[q].Announcing? && t.replays[q].id == id;
    } else {
      NewMessageIsSafe(cfg, s, t, id);
    }
  }

  lemma ReplayKeepsCarried(cfg: Config, s: State, r: nat, op: ReplayOp, id: nat)
    requires Holding(cfg) && Inv(cfg, s) && CarriedInv(cfg, s) && ReplayCan(cfg, s, r, op) && !StrandsReplayed(s, r, op)
    ensures Carried(cfg, ReplayDoes(cfg, s, r, op), id)
  {
    var t := ReplayDoes(cfg, s, r, op);
    assert Carried(cfg, s, id);
    ReplayFrame(cfg, s, r, op);
    if id in s.db.deliveries {
      assert ReplayOk(cfg, s, Replay(s, r));
      ReplayStatusStep(cfg, s, r, op, id);
      if t.db.deliveries[id] != s.db.deliveries[id] {
        assert t.replays[r].Announcing? && t.replays[r].id == id;
      } else {
        if HasOpenRow(s, id) { OpenRowKept(s, t, id); }
        if BeingAnnounced(s, id) { ReplayKeepsAnnouncing(cfg, s, r, op, id); }
        BystanderKeepsCarried(cfg, s, t, id);
      }
    }
  }

  // ----- All runs

  lemma StepKeepsCarried(cfg: Config, s: State, a: Action, id: nat)
    requires Holding(cfg) && Inv(cfg, s) && CarriedInv(cfg, s) && Enabled(cfg, s, a) && !Strands(s, a)
    ensures Carried(cfg, Apply(cfg, s, a), id)
  {
    match a
    case Tick(now) =>
      assert Carried(cfg, s, id);
      if id in s.db.deliveries {
        var t := s.(now := now);
        if HasOpenRow(s, id) { OpenRowKept(s, t, id); }
        if BeingAnnounced(s, id) { AnnouncedStill(s, t, id); }
        BystanderKeepsCarried(cfg, s, t, id);
      }
    case ByClient(c, op) => ClientKeepsCarried(cfg, s, c, op, id);
    case ByPublisher(p, op) => PublisherKeepsCarried(cfg, s, p, op, id);
    case ByScheduler(k, op) => SchedulerKeepsCarried(cfg, s, k, op, id);
    case ByWorker(w, op) => WorkerKeepsCarried(cfg, s, w, op, id);
    case ByReplay(r, op) => ReplayKeepsCarried(cfg, s, r, op, id);
  }

  lemma WorkerKeepsAcks(cfg: Config, s: State, w: nat, op: WorkerOp)
    requires AcksInv(s) && WorkerOk(cfg, s, Worker(s, w)) && WorkerCan(cfg, s, w, op)
    ensures AcksInv(WorkerDoes(cfg, s, w, op))
  {
  }

  lemma StepKeepsAcks(cfg: Config, s: State, a: Action)
    requires Inv(cfg, s) && AcksInv(s) && Enabled(cfg, s, a)
    ensures AcksInv(Apply(cfg, s, a))
  {
    match a
    case ByClient(c, op) =>
      assert ClientOk(cfg, s, Client(s, c));
      ClientFrame(cfg, s, c, op);
    case ByPublisher(p, op) => PublisherFrame(cfg, s, p, op);
    case ByScheduler(k, op) => SchedulerFrame(cfg, s, k, op);
    case ByWorker(w, op) =>
      WorkerAt(cfg, s, w);
      WorkerKeepsAcks(cfg, s, w, op);
    case ByReplay(r, op) => ReplayFrame(cfg, s, r, op);
    case _ =>
  }

  lemma WorkerNeverRetries(cfg: Config, s: State, w: nat, op: WorkerOp)
    requires cfg.maxAttempts <= 1 && NoneRetries(s) && WorkerOk(cfg, s, Worker(s, w)) && WorkerCan(cfg, s, w, op)
    ensures NoneRetries(WorkerDoes(cfg, s, w, op))
  {
  }

  lemma OthersNeverRetry(cfg: Config, s: State, a: Action)
    requires Inv(cfg, s) && NoneRetries(s) && Enabled(cfg, s, a) && !a.ByWorker?
    ensures NoneRetries(Apply(cfg, s, a))
  {
    ProcessesAt(cfg, s);
    match a
    case ByClient(c, op) => ClientNeverRetries(cfg, s, c, op);
    case ByPublisher(p, op) => PublisherFrame(cfg, s, p, op);
    case ByScheduler(k, op) => SchedulerNeverRetries(cfg, s, k, op);
    case ByReplay(r, op) => ReplayNeverRetries(cfg, s, r, op);
    case _ =>
  }

  lemma SchedulerNeverRetries(cfg: Config, s: State, k: nat, op: SchedulerOp)
    requires SchedulerOk(cfg, s, Scheduler(s, k)) && NoneRetries(s) && SchedulerCan(cfg, s, k, op)
    ensures NoneRetries(SchedulerDoes(cfg, s, k, op))
  {
  }

  lemma ReplayNeverRetries(cfg: Config, s: State, r: nat, op: ReplayOp)
    requires ReplayOk(cfg, s, Replay(s, r)) && NoneRetries(s) && ReplayCan(cfg, s, r, op)
    ensures NoneRetries(ReplayDoes(cfg, s, r, op))
  {
  }

  lemma ClientNeverRetries(cfg: Config, s: State, c: nat, op: ClientOp)
    requires ClientOk(cfg, s, Client(s, c)) && NoneRetries(s) && ClientCan(s, c, op)
    ensures NoneRetries(ClientDoes(cfg, s, c, op))
  {
  }

  lemma StepKeepsCopies(cfg: Config, s: State, a: Action)
    requires Holding(cfg) && Inv(cfg, s) && CopiesInv(cfg, s) && Enabled(cfg, s, a)
    ensures CopiesInv(cfg, Apply(cfg, s, a))
  {
    StepKeepsAcks(cfg, s, a);
    if cfg.exclusiveHold {
      StepKeepsHold(cfg, s, a);
    } else if a.ByWorker? {
      WorkerAt(cfg, s, a.w);
      WorkerNeverRetries(cfg, s, a.w, a.wop);
    } else {
      OthersNeverRetry(cfg, s, a);
    }
  }

  lemma StepKeepsHold(cfg: Config, s: State, a: Action)
    requires cfg.exclusiveHold && Inv(cfg, s) && HoldInv(cfg, s) && Enabled(cfg, s, a)
    ensures HoldInv(cfg, Apply(cfg, s, a))
  {
    var t := Apply(cfg, s, a);
    match a
    case Tick(now) => HoldKept(cfg, s, t);
    case ByClient(c, op) =>
      assert ClientOk(cfg, s, Client(s, c));
      ClientFrame(cfg, s, c, op);
      HoldKept(cfg, s, t);
    case ByPublisher(p, op) => PublisherFrame(cfg, s, p, op); HoldKept(cfg, s, t);
    case ByScheduler(k, op) => SchedulerFrame(cfg, s, k, op); HoldKept(cfg, s, t);
    case ByWorker(w, op) => WorkerAt(cfg, s, w); WorkerKeepsHold(cfg, s, w, op);
    case ByReplay(r, op) => ReplayFrame(cfg, s, r, op); HoldKept(cfg, s, t);
  }

  lemma {:induction false} RunKeepsCarried(cfg: Config, s: State, acts: seq<Action>)
    requires Holding(cfg) && Inv(cfg, s) && CarriedInv(cfg, s)
    requires RunFrom(cfg, s, acts).Some? && Unstranded(cfg, s, acts)
    ensures Inv(cfg, RunFrom(cfg, s, acts).value) && CarriedInv(cfg, RunFrom(cfg, s, acts).value)
  {
    RunKeepsInv(cfg, s, acts);
    if acts != [] {
      var before, a := acts[..|acts| - 1], acts[|acts| - 1];
      var t := RunFrom(cfg, s, before).value;
      RunKeepsCarried(cfg, s, before);
      StepKeepsCopies(cfg, t, a);
      forall id ensures Carried(cfg, Apply(cfg, t, a), id) {
        StepKeepsCarried(cfg, t, a, id);
      }
    }
  }

  /** In every run without a stranding failure, every delivery is finished or has a carrier. */
  lemma NoWorkIsLost(cfg: Config, acts: seq<Action>, id: nat)
    requires Holding(cfg) && RunFrom(cfg, INIT, acts).Some? && Unstranded(cfg, INIT, acts)
    ensures Carried(cfg, RunFrom(cfg, INIT, acts).value, id)
  {
    InitInv(cfg);
    RunKeepsCarried(cfg, INIT, acts);
  }
}
