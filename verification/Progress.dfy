/**
  What can still be finished. `Alive` says of any reachable state whether a delivery can
  be: something still moves it, or, while it is pending, the scheduler will get to it.
  Here an alive delivery is brought to an end by a run that strands and jams nothing;
  `Endings` shows that nothing brings any other one to an end.
*/
module Progress {
  import opened Wrappers
  import opened Sets
  import opened Notification
  import opened Protocol
  import opened Frames
  import opened Safety
  import opened Guarantees
  import opened Carriers

  /** The scheduler stops between a promotion and marking its scheduled row as processed. */
  predicate Jams(s: State, a: Action) {
    match a
    case ByScheduler(k, Restart) => Scheduler(s, k).Enqueuing? || Scheduler(s, k).Finishing?
    case ByScheduler(_, Promote(write)) => write.Unacknowledged?
    case ByScheduler(_, Enqueue(write)) => !write.Applied?
    case ByScheduler(_, MarkDone(write)) => write.Lost?
    case _ => false
  }

  predicate Harmless(s: State, a: Action) {
    !Strands(s, a) && !Jams(s, a)
  }

  /** No action of the run strands a delivery or jams the scheduler; every other failure may occur. */
  ghost predicate Smooth(cfg: Config, s: State, acts: seq<Action>)
    requires RunFrom(cfg, s, acts).Some?
  {
    acts == [] ||
    var before := acts[..|acts| - 1];
    Smooth(cfg, s, before) && Harmless(RunFrom(cfg, s, before).value, acts[|acts| - 1])
  }

  /** Some smooth run leads from `s` to `t`. */
  ghost predicate Leads(cfg: Config, s: State, t: State) {
    exists acts :: RunFrom(cfg, s, acts) == Some(t) && Smooth(cfg, s, acts)
  }

  /** Every unprocessed scheduled row is for a pending delivery, or in the scheduler's hands. */
  ghost predicate JamFree(s: State) {
    forall id :: id in s.db.scheduled && !s.db.scheduled[id].processed ==>
      HasStatus(s.db, id, Pending) || InHand(Scheduler(s, 0), id)
  }

  predicate Finished(s: State, id: nat) {
    HasStatus(s.db, id, Succeeded) || HasStatus(s.db, id, Dlq)
  }

  /** The delivery can be finished from here. */
  ghost predicate Finishable(cfg: Config, s: State, id: nat) {
    exists t :: Leads(cfg, s, t) && Finished(t, id)
  }

  lemma Stay(cfg: Config, s: State, id: nat)
    requires Finished(s, id)
    ensures Finishable(cfg, s, id)
  {
    assert RunFrom(cfg, s, []) == Some(s) && Smooth(cfg, s, []);
    assert Leads(cfg, s, s);
  }

  lemma {:induction false} RunCons(cfg: Config, s: State, a: Action, acts: seq<Action>, t: State)
    requires Enabled(cfg, s, a) && Harmless(s, a)
    requires RunFrom(cfg, Apply(cfg, s, a), acts) == Some(t) && Smooth(cfg, Apply(cfg, s, a), acts)
    ensures RunFrom(cfg, s, [a] + acts) == Some(t) && Smooth(cfg, s, [a] + acts)
  {
    var all := [a] + acts;
    if acts == [] {
      assert all == [a] && all[..0] == [];
      assert RunFrom(cfg, s, all[..0]) == Some(s);
    } else {
      var before := acts[..|acts| - 1];
      var m := RunFrom(cfg, Apply(cfg, s, a), before).value;
      RunCons(cfg, s, a, before, m);
      assert all[..|all| - 1] == [a] + before;
    }
  }

  /** What can be finished after a harmless step can be finished before it. */
  lemma Before(cfg: Config, s: State, a: Action, id: nat)
    requires Enabled(cfg, s, a) && Harmless(s, a) && Finishable(cfg, Apply(cfg, s, a), id)
    ensures Finishable(cfg, s, id)
  {
    var u := Apply(cfg, s, a);
    var t :| Leads(cfg, u, t) && Finished(t, id);
    var acts :| RunFrom(cfg, u, acts) == Some(t) && Smooth(cfg, u, acts);
    RunCons(cfg, s, a, acts, t);
    assert Leads(cfg, s, t);
  }

  // ----- Which deliveries are alive

  /** What the invariants say of every reachable state. */
  ghost predicate Sane(cfg: Config, s: State) {
    cfg.oneScheduler && Live(cfg) && Inv(cfg, s) && AcksInv(s) && (cfg.exclusiveHold ==> HoldInv(cfg, s))
  }

  ghost predicate PendingRow(s: State, id: nat, r: nat) {
    r < |s.db.outbox| && s.db.outbox[r].delivery == id && !s.db.outbox[r].published
  }

  predicate Publishes(s: State, pc: PublisherPc, id: nat) {
    pc.Publishing? && pc.row < |s.db.outbox| && s.db.outbox[pc.row].delivery == id
  }

  ghost predicate CopyOf(cfg: Config, s: State, id: nat, c: Copy) {
    Outstanding(cfg, s.bus, c) && s.bus.stream[c.msg].delivery == id
  }

  /** The worker has a message of the delivery, or competes for it in the given status. */
  predicate Contends(s: State, pc: WorkerPc, id: nat, status: Status) {
    || (pc.Pulled? && pc.copy.msg < |s.bus.stream| && s.bus.stream[pc.copy.msg].delivery == id)
    || (pc.Claiming? && pc.d.id == id && pc.prev == status)
  }

  ghost predicate HasPendingRow(s: State, id: nat) {
    exists r :: PendingRow(s, id, r)
  }

  ghost predicate BeingPublished(s: State, id: nat) {
    exists p :: p in s.publishers && Publishes(s, s.publishers[p], id)
  }

  ghost predicate HasCopy(cfg: Config, s: State, id: nat) {
    exists c :: CopyOf(cfg, s, id, c)
  }

  ghost predicate HasContender(s: State, id: nat, status: Status) {
    exists w :: w in s.workers && Contends(s, s.workers[w], id, status)
  }

  /** Something can bring the delivery, in the given status, to a worker that claims it. */
  ghost predicate Movable(cfg: Config, s: State, id: nat, status: Status) {
    || HasPendingRow(s, id) || BeingPublished(s, id) || BeingEnqueued(s, id) || BeingAnnounced(s, id)
    || HasCopy(cfg, s, id) || HasContender(s, id, status)
  }

  /** An owner that is about to store the delivery for a retry is no use unless something moves it afterwards. */
  ghost predicate Saves(cfg: Config, s: State, pc: WorkerPc, id: nat) {
    Owns(pc, id) && (pc.stage == SavingRetry ==> Movable(cfg, s, id, Retrying))
  }

  /** The scheduler will come to the delivery without fetching it again. */
  predicate Wanted(pc: SchedulerPc, id: nat) {
    (!pc.Sleeping? && id in pc.todo) || (pc.Promoting? && pc.d.id == id)
  }

  predicate InHand(pc: SchedulerPc, id: nat) {
    (pc.Enqueuing? && pc.d.id == id) || (pc.Finishing? && pc.id == id)
  }

  /** A scheduled row that FetchDue will always return and processDue will always skip. */
  ghost predicate Stuck(s: State, x: nat) {
    && x in s.db.scheduled && !s.db.scheduled[x].processed
    && Promoted(s, x) && !InHand(Scheduler(s, 0), x)
  }

  /** The stuck rows that are fetched before the row of the delivery. */
  ghost function Blockers(s: State, id: nat): set<nat>
    requires id in s.db.scheduled
  {
    set x | x in s.db.scheduled && Stuck(s, x) && s.db.scheduled[x].at < s.db.scheduled[id].at
  }

  ghost predicate Promotable(cfg: Config, s: State, id: nat) {
    id in s.db.scheduled && (Wanted(Scheduler(s, 0), id) || |Blockers(s, id)| < cfg.batch)
  }

  ghost predicate Alive(cfg: Config, s: State, id: nat) {
    && id in s.db.deliveries
    && match s.db.deliveries[id].status
       case Pending => Promotable(cfg, s, id)
       case Queued | Retrying => Movable(cfg, s, id, s.db.deliveries[id].status)
       case Processing => exists w :: w in s.workers && Saves(cfg, s, s.workers[w], id)
       case _ => true
  }

  lemma SaneStep(cfg: Config, s: State, a: Action)
    requires Sane(cfg, s) && Enabled(cfg, s, a)
    ensures Sane(cfg, Apply(cfg, s, a))
  {
    StepKeepsInv(cfg, s, a);
    StepKeepsAcks(cfg, s, a);
    if cfg.exclusiveHold { StepKeepsHold(cfg, s, a); }
  }

  lemma {:induction false} RunsAreSane(cfg: Config, acts: seq<Action>)
    requires cfg.oneScheduler && Live(cfg) && RunFrom(cfg, INIT, acts).Some?
    ensures Sane(cfg, RunFrom(cfg, INIT, acts).value)
  {
    if acts == [] {
      InitInv(cfg);
    } else {
      var before := acts[..|acts| - 1];
      RunsAreSane(cfg, before);
      SaneStep(cfg, RunFrom(cfg, INIT, before).value, acts[|acts| - 1]);
    }
  }

  lemma ReachableSane(cfg: Config, s: State)
    requires cfg.oneScheduler && Live(cfg) && Reachable(cfg, s)
    ensures Sane(cfg, s)
  {
    var acts :| RunFrom(cfg, INIT, acts) == Some(s);
    RunsAreSane(cfg, acts);
  }

  lemma SchedulerKeepsJamFree(cfg: Config, s: State, k: nat, op: SchedulerOp)
    requires cfg.oneScheduler && SchedulersInv(cfg, s) && JamFree(s)
    requires SchedulerCan(cfg, s, k, op) && !Jams(s, ByScheduler(k, op))
    ensures JamFree(SchedulerDoes(cfg, s, k, op))
  {
    assert SchedulerOk(cfg, s, Scheduler(s, k));
  }

  lemma ClientKeepsJamFree(cfg: Config, s: State, c: nat, op: ClientOp)
    requires ClientOk(cfg, s, Client(s, c)) && JamFree(s) && ClientCan(s, c, op)
    ensures JamFree(ClientDoes(cfg, s, c, op))
  {
    ClientFrame(cfg, s, c, op);
    if op.Commit? && Client(s, c).d.key !in s.db.keys { CommitStores(cfg, s, c); } else { ClientFrame(cfg, s, c, op); }
  }

  lemma OthersKeepPending(cfg: Config, s: State, a: Action, id: nat)
    requires cfg.oneScheduler && Inv(cfg, s) && Enabled(cfg, s, a) && !a.ByScheduler? && HasStatus(s.db, id, Pending)
    ensures HasStatus(Apply(cfg, s, a).db, id, Pending)
  {
    StatusStep(cfg, s, a, id);
  }

  lemma OthersKeepSchedule(cfg: Config, s: State, a: Action)
    requires Enabled(cfg, s, a) && !a.ByScheduler? && !a.ByClient?
    ensures Apply(cfg, s, a).db.scheduled == s.db.scheduled && Apply(cfg, s, a).schedulers == s.schedulers
  {
    match a
    case ByWorker(w, op) => WorkerFrame(cfg, s, w, op);
    case ByPublisher(p, op) => PublisherFrame(cfg, s, p, op);
    case ByReplay(r, op) => ReplayFrame(cfg, s, r, op);
    case _ =>
  }

  lemma StepKeepsJamFree(cfg: Config, s: State, a: Action)
    requires cfg.oneScheduler && Inv(cfg, s) && JamFree(s) && Enabled(cfg, s, a) && !Jams(s, a)
    ensures JamFree(Apply(cfg, s, a))
  {
    match a
    case ByScheduler(k, op) => SchedulerKeepsJamFree(cfg, s, k, op);
    case ByClient(c, op) =>
      assert ClientOk(cfg, s, Client(s, c));
      ClientKeepsJamFree(cfg, s, c, op);
    case _ =>
      OthersKeepSchedule(cfg, s, a);
      forall id | HasStatus(s.db, id, Pending) ensures HasStatus(Apply(cfg, s, a).db, id, Pending) {
        OthersKeepPending(cfg, s, a, id);
      }
  }

  /** A number that is larger than all those in use. */
  lemma {:induction false} Above(s: set<nat>) returns (x: nat)
    ensures forall y :: y in s ==> y < x
  {
    if s == {} {
      x := 0;
    } else {
      var e :| e in s;
      var below := Above(s - {e});
      assert forall y :: y in s ==> y == e || y in s - {e};
      x := if below > e then below else e + 1;
    }
  }

  // ----- Going on

  /** A set of states that holds those in which the delivery is finished, and all from which a harmless step leads into it. */
  ghost predicate ClosedBackwards(cfg: Config, p: iset<State>, id: nat) {
    && (forall s :: Finished(s, id) ==> s in p)
    && (forall s, a :: Enabled(cfg, s, a) && Harmless(s, a) && Apply(cfg, s, a) in p ==> s in p)
  }

  /** The least such set: the states from which a smooth run finishes the delivery. */
  ghost predicate Endable(cfg: Config, s: State, id: nat) {
    forall p :: ClosedBackwards(cfg, p, id) ==> s in p
  }

  lemma StayEnded(cfg: Config, s: State, id: nat)
    requires Finished(s, id)
    ensures Endable(cfg, s, id)
  {
  }

  lemma StepBack(cfg: Config, s: State, a: Action, id: nat)
    requires Enabled(cfg, s, a) && Harmless(s, a) && Endable(cfg, Apply(cfg, s, a), id)
    ensures Endable(cfg, s, id)
  {
    forall p | ClosedBackwards(cfg, p, id) ensures s in p {
      assert Apply(cfg, s, a) in p;
    }
  }

  lemma EndableIsFinishable(cfg: Config, s: State, id: nat)
    requires Endable(cfg, s, id)
    ensures Finishable(cfg, s, id)
  {
    var p := iset t | Finishable(cfg, t, id);
    forall t | Finished(t, id) ensures t in p { Stay(cfg, t, id); }
    forall t, a | Enabled(cfg, t, a) && Harmless(t, a) && Apply(cfg, t, a) in p ensures t in p {
      Before(cfg, t, a, id);
    }
    assert ClosedBackwards(cfg, p, id);
  }

  /**
    A state that can be reached in a live deployment with one scheduler. The lemmas below go on from it one step at a
    time, and take from the invariants only what the step needs.
  */
  ghost predicate Going(cfg: Config, s: State) {
    cfg.oneScheduler && Live(cfg) && Reaches(cfg, INIT, s)
  }

  lemma GoingStep(cfg: Config, s: State, a: Action)
    requires Going(cfg, s) && Enabled(cfg, s, a)
    ensures Going(cfg, Apply(cfg, s, a))
  {
    ReachesStep(cfg, INIT, s, a);
  }

  lemma ReachableIsGoing(cfg: Config, s: State)
    requires cfg.oneScheduler && Live(cfg) && Reachable(cfg, s)
    ensures Going(cfg, s)
  {
    var acts :| RunFrom(cfg, INIT, acts) == Some(s);
    RunReaches(cfg, INIT, acts);
  }

  lemma GoingIsSane(cfg: Config, s: State)
    requires Going(cfg, s)
    ensures Sane(cfg, s)
  {
    ReachesIsReachable(cfg, s);
    ReachableSane(cfg, s);
  }

  lemma WorkerIsOk(cfg: Config, s: State, w: nat)
    requires Going(cfg, s)
    ensures WorkerOk(cfg, s, Worker(s, w))
  {
    GoingIsSane(cfg, s);
    WorkerAt(cfg, s, w);
  }

  lemma RowIsOk(cfg: Config, s: State, id: nat)
    requires Going(cfg, s) && id in s.db.deliveries
    ensures RowOk(cfg, s, id)
  {
    GoingIsSane(cfg, s);
    assert RowsInv(cfg, s);
  }

  lemma RowsAreOk(cfg: Config, s: State)
    requires Going(cfg, s)
    ensures RowsInv(cfg, s)
  {
    GoingIsSane(cfg, s);
  }

  lemma SchedulerIsOk(cfg: Config, s: State)
    requires Going(cfg, s)
    ensures SchedulersInv(cfg, s) && SchedulerOk(cfg, s, Scheduler(s, 0))
  {
    GoingIsSane(cfg, s);
    assert SchedulersInv(cfg, s);
  }

  lemma PublisherIsOk(cfg: Config, s: State, p: nat)
    requires Going(cfg, s)
    ensures PublisherOk(s, Publisher(s, p))
  {
    GoingIsSane(cfg, s);
    assert PublishersInv(s);
  }

  lemma OutboxIsOk(cfg: Config, s: State)
    requires Going(cfg, s)
    ensures OutboxInv(cfg, s)
  {
    GoingIsSane(cfg, s);
  }

  lemma CopiesAreOk(cfg: Config, s: State)
    requires Going(cfg, s)
    ensures AcksInv(s) && (cfg.exclusiveHold ==> HoldInv(cfg, s))
  {
    GoingIsSane(cfg, s);
  }

  // ----- From a worker

  function Steps(stage: Stage): nat {
    match stage
    case Gating => 3
    case Sending => 2
    case RecordingDlq => 1
    case _ => 0
  }

  /** An owner that need not store a retry has the delivery accepted, or stores it as it has decided. */
  lemma FromActing(cfg: Config, s: State, w: nat, id: nat)
    requires Going(cfg, s) && Owns(Worker(s, w), id) && Worker(s, w).stage != SavingRetry
    ensures Endable(cfg, s, id)
    decreases Steps(Worker(s, w).stage)
  {
    WorkerIsOk(cfg, s, w);
    var op := match Worker(s, w).stage
              case Gating => Gate(Cleared)
              case Sending => Send(Delivered)
              case RecordingDlq => Record(Applied)
              case _ => Save(Applied);
    var a := ByWorker(w, op);
    var t := Apply(cfg, s, a);
    if op.Save? {
      StayEnded(cfg, t, id);
    } else {
      GoingStep(cfg, s, a);
      FromActing(cfg, t, w, id);
    }
    StepBack(cfg, s, a, id);
  }

  predicate Startable(s: State, id: nat) {
    id in s.db.deliveries && CanStart(s.db.deliveries[id].status)
  }

  lemma FromContender(cfg: Config, s: State, w: nat, id: nat)
    requires Going(cfg, s) && Startable(s, id) && Contends(s, Worker(s, w), id, s.db.deliveries[id].status)
    ensures Endable(cfg, s, id)
    decreases Worker(s, w).Pulled?
  {
    RowIsOk(cfg, s, id);
    var a := ByWorker(w, if Worker(s, w).Pulled? then Find(true) else Claim(Applied));
    var t := Apply(cfg, s, a);
    GoingStep(cfg, s, a);
    if Worker(s, w).Pulled? { FromContender(cfg, t, w, id); } else { FromActing(cfg, t, w, id); }
    StepBack(cfg, s, a, id);
  }

  lemma FromFreeCopy(cfg: Config, s: State, w: nat, c: Copy, id: nat)
    requires Going(cfg, s) && Worker(s, w).Free? && CopyOf(cfg, s, id, c) && (cfg.exclusiveHold ==> Unheld(s, c)) && Startable(s, id)
    ensures Endable(cfg, s, id)
  {
    var a := ByWorker(w, Pull(c));
    GoingStep(cfg, s, a);
    FromContender(cfg, Apply(cfg, s, a), w, id);
    StepBack(cfg, s, a, id);
  }

  lemma FromCopy(cfg: Config, s: State, c: Copy, id: nat)
    requires Going(cfg, s) && CopyOf(cfg, s, id, c) && Startable(s, id)
    ensures Endable(cfg, s, id)
  {
    if cfg.exclusiveHold && !Unheld(s, c) {
      var w :| w in s.workers && !s.workers[w].Free? && s.workers[w].copy == c;
      FromHolder(cfg, s, w, c, id);
    } else {
      var w := Above(s.workers.Keys);
      FromFreeCopy(cfg, s, w, c, id);
    }
  }

  /** Whoever holds the copy may as well let go of it, unless it owns the delivery, though others have written to it since. */
  lemma FromHolder(cfg: Config, s: State, w: nat, c: Copy, id: nat)
    requires Going(cfg, s) && CopyOf(cfg, s, id, c) && Startable(s, id) && cfg.exclusiveHold
    requires w in s.workers && !s.workers[w].Free? && s.workers[w].copy == c
    ensures Endable(cfg, s, id)
  {
    WorkerIsOk(cfg, s, w);
    if !s.workers[w].Owning? {
      FromIdleHolder(cfg, s, w, c, id);
    } else if s.workers[w].stage != SavingRetry {
      FromActing(cfg, s, w, id);
    } else {
      var a := ByWorker(w, Save(Applied));
      GoingStep(cfg, s, a);
      FromIdleHolder(cfg, Apply(cfg, s, a), w, c, id);
      StepBack(cfg, s, a, id);
    }
  }

  lemma FromIdleHolder(cfg: Config, s: State, w: nat, c: Copy, id: nat)
    requires Going(cfg, s) && CopyOf(cfg, s, id, c) && Startable(s, id) && cfg.exclusiveHold
    requires w in s.workers && !s.workers[w].Free? && s.workers[w].copy == c && !s.workers[w].Owning?
    ensures Endable(cfg, s, id)
  {
    var a := ByWorker(w, Crash);
    GoingStep(cfg, s, a);
    CopiesAreOk(cfg, s);
    CrashFrees(cfg, s, w, c);
    FromFreeCopy(cfg, Apply(cfg, s, a), w, c, id);
    StepBack(cfg, s, a, id);
  }

  lemma CrashFrees(cfg: Config, s: State, w: nat, c: Copy)
    requires HoldInv(cfg, s) && w in s.workers && !s.workers[w].Free? && s.workers[w].copy == c
    ensures Unheld(WorkerDoes(cfg, s, w, Crash), c)
  {
  }

  /** A new message is a copy for every consumer. */
  lemma FromNewMessage(cfg: Config, s: State, t: State, id: nat)
    requires AcksInv(s) && Going(cfg, t) && Startable(t, id) && t.bus.acked == s.bus.acked
    requires |t.bus.stream| == |s.bus.stream| + 1 && t.bus.stream[|s.bus.stream|].delivery == id
    ensures Endable(cfg, t, id)
  {
    var consumer :| consumer in cfg.consumers;
    FromCopy(cfg, t, Copy(consumer, |s.bus.stream|), id);
  }

  // ----- From the other carriers

  lemma FromPublishing(cfg: Config, s: State, p: nat, id: nat)
    requires Going(cfg, s) && Startable(s, id)
    requires Publishes(s, Publisher(s, p), id)
    ensures Endable(cfg, s, id)
  {
    var a := ByPublisher(p, Publish(Applied));
    GoingStep(cfg, s, a);
    var t := Apply(cfg, s, a);
    CopiesAreOk(cfg, s);
    FromNewMessage(cfg, s, t, id);
    StepBack(cfg, s, a, id);
  }

  /** The publisher skips the rows before `r`, and publishes it. */
  lemma FromFlushing(cfg: Config, s: State, p: nat, r: nat, id: nat)
    requires Going(cfg, s) && Startable(s, id)
    requires Publisher(s, p).Flushing? && r in Publisher(s, p).todo && PendingRow(s, id, r)
    ensures Endable(cfg, s, id)
    decreases |Publisher(s, p).todo|
  {
    var todo := Publisher(s, p).todo;
    PublisherIsOk(cfg, s, p);
    OutboxIsOk(cfg, s);
    assert !HasPublished(s.db.outbox, id);
    var a := ByPublisher(p, Check(todo[0] == r));
    GoingStep(cfg, s, a);
    var t := Apply(cfg, s, a);
    if todo[0] == r {
      FromPublishing(cfg, t, p, id);
    } else {
      assert PendingRow(t, id, r);
      FromFlushing(cfg, t, p, r, id);
    }
    StepBack(cfg, s, a, id);
  }

  function Backlog(outbox: seq<OutboxRow>, r: nat): nat
    requires r <= |outbox|
  {
    if r == 0 then 0 else Backlog(outbox, r - 1) + if outbox[r - 1].published then 0 else 1
  }

  lemma {:induction false} PublishingShrinksBacklog(outbox: seq<OutboxRow>, q: nat, r: nat)
    requires q < r <= |outbox| && !outbox[q].published
    ensures Backlog(outbox[q := outbox[q].(published := true)], r) == Backlog(outbox, r) - 1
  {
    if q < r - 1 {
      PublishingShrinksBacklog(outbox, q, r - 1);
    } else {
      BacklogIsLocal(outbox, outbox[q := outbox[q].(published := true)], q);
    }
  }

  lemma {:induction false} BacklogIsLocal(a: seq<OutboxRow>, b: seq<OutboxRow>, r: nat)
    requires r <= |a| && r <= |b| && a[..r] == b[..r]
    ensures Backlog(a, r) == Backlog(b, r)
  {
    if r > 0 {
      assert a[r - 1] == a[..r][r - 1] == b[..r][r - 1] == b[r - 1];
      assert a[..r - 1] == a[..r][..r - 1] == b[..r][..r - 1] == b[..r - 1];
      BacklogIsLocal(a, b, r - 1);
    }
  }

  lemma MarkingOlder(s: State, t: State, p: nat, q: nat, r: nat, id: nat)
    requires PendingRow(s, id, r) && q < r && !s.db.outbox[q].published
    requires Publisher(s, p).Marking?
    requires t.db == WithPublished(s.db, q) && t.publishers == s.publishers[p := Flushing(Publisher(s, p).todo)]
    ensures PendingRow(t, id, r) && Backlog(t.db.outbox, r) == Backlog(s.db.outbox, r) - 1
  {
    PublishingShrinksBacklog(s.db.outbox, q, r);
  }

  predicate AtOlder(pc: PublisherPc, q: nat) {
    (pc.Flushing? && |pc.todo| > 0 && pc.todo[0] == q) || (pc.Publishing? && pc.row == q) || (pc.Marking? && pc.row == q)
  }

  /** The publisher has come to an older pending row, publishes and marks it, and another one starts anew. */
  lemma FromOlderRow(cfg: Config, s: State, p: nat, q: nat, r: nat, id: nat)
    requires Going(cfg, s) && Startable(s, id) && PendingRow(s, id, r)
    requires AtOlder(Publisher(s, p), q) && q < r && !s.db.outbox[q].published
    ensures Endable(cfg, s, id)
    decreases Backlog(s.db.outbox, r), if Publisher(s, p).Flushing? then 2 else if Publisher(s, p).Publishing? then 1 else 0
  {
    OutboxIsOk(cfg, s);
    assert !HasPublished(s.db.outbox, s.db.outbox[q].delivery);
    var pc := Publisher(s, p);
    var a := ByPublisher(p, if pc.Flushing? then Check(true) else if pc.Publishing? then Publish(Applied) else Mark(Applied));
    GoingStep(cfg, s, a);
    var t := Apply(cfg, s, a);
    if pc.Marking? {
      MarkingOlder(s, t, p, q, r, id);
      FromPendingRow(cfg, t, r, id);
    } else {
      assert PendingRow(t, id, r);
      FromOlderRow(cfg, t, p, q, r, id);
    }
    StepBack(cfg, s, a, id);
  }

  lemma FromFetched(cfg: Config, s: State, p: nat, r: nat, id: nat)
    requires Going(cfg, s) && PendingRow(s, id, r) && Startable(s, id)
    requires Publisher(s, p) == Flushing(Oldest(s.db.outbox, 0, cfg.batch))
    ensures Endable(cfg, s, id)
    decreases Backlog(s.db.outbox, r), 3
  {
    var rows := Oldest(s.db.outbox, 0, cfg.batch);
    OldestRows(s.db.outbox, 0, cfg.batch);
    if r in rows {
      FromFlushing(cfg, s, p, r, id);
    } else {
      FromOlderRow(cfg, s, p, rows[0], r, id);
    }
  }

  lemma FromPendingRow(cfg: Config, s: State, r: nat, id: nat)
    requires Going(cfg, s) && PendingRow(s, id, r) && Startable(s, id)
    ensures Endable(cfg, s, id)
    decreases Backlog(s.db.outbox, r), 4
  {
    var p := Above(s.publishers.Keys);
    var a := ByPublisher(p, Fetch);
    GoingStep(cfg, s, a);
    var t := Apply(cfg, s, a);
    assert PendingRow(t, id, r);
    FromFetched(cfg, t, p, r, id);
    StepBack(cfg, s, a, id);
  }

  lemma FromAnnouncing(cfg: Config, s: State, r: nat, id: nat)
    requires Going(cfg, s) && r in s.replays && s.replays[r].Announcing? && s.replays[r].id == id && Startable(s, id)
    ensures Endable(cfg, s, id)
  {
    var a := ByReplay(r, Announce(Applied));
    GoingStep(cfg, s, a);
    var t := Apply(cfg, s, a);
    CopiesAreOk(cfg, s);
    FromNewMessage(cfg, s, t, id);
    StepBack(cfg, s, a, id);
  }

  lemma FromEnqueuing(cfg: Config, s: State, id: nat)
    requires Going(cfg, s) && BeingEnqueued(s, id) && Startable(s, id)
    ensures Endable(cfg, s, id)
  {
    var a := ByScheduler(0, Enqueue(Applied));
    GoingStep(cfg, s, a);
    var t := Apply(cfg, s, a);
    FromPendingRow(cfg, t, |s.db.outbox|, id);
    StepBack(cfg, s, a, id);
  }

  lemma FromMovable(cfg: Config, s: State, id: nat)
    requires Going(cfg, s) && Startable(s, id) && Movable(cfg, s, id, s.db.deliveries[id].status)
    ensures Endable(cfg, s, id)
  {
    if HasPendingRow(s, id) {
      var r :| PendingRow(s, id, r);
      FromPendingRow(cfg, s, r, id);
    } else if BeingPublished(s, id) {
      var p :| p in s.publishers && Publishes(s, s.publishers[p], id);
      FromPublishing(cfg, s, p, id);
    } else if BeingEnqueued(s, id) {
      FromEnqueuing(cfg, s, id);
    } else if BeingAnnounced(s, id) {
      var r :| r in s.replays && s.replays[r].Announcing? && s.replays[r].id == id;
      FromAnnouncing(cfg, s, r, id);
    } else if HasCopy(cfg, s, id) {
      var c :| CopyOf(cfg, s, id, c);
      FromCopy(cfg, s, c, id);
    } else {
      var w :| w in s.workers && Contends(s, s.workers[w], id, s.db.deliveries[id].status);
      FromContender(cfg, s, w, id);
    }
  }

  lemma SaveKeepsMovable(cfg: Config, s: State, w: nat, id: nat, status: Status)
    requires AtSave(Worker(s, w)) && Movable(cfg, s, id, status)
    ensures Movable(cfg, AfterSave(s, w, Applied), id, status)
  {
    var t := AfterSave(s, w, Applied);
    if HasPendingRow(s, id) {
      var r :| PendingRow(s, id, r);
      assert PendingRow(t, id, r);
    } else if BeingPublished(s, id) {
      var p :| p in s.publishers && Publishes(s, s.publishers[p], id);
      assert Publishes(t, t.publishers[p], id);
    } else if HasCopy(cfg, s, id) {
      var c :| CopyOf(cfg, s, id, c);
      assert CopyOf(cfg, t, id, c);
    } else if HasContender(s, id, status) {
      var v :| v in s.workers && Contends(s, s.workers[v], id, status);
      assert v in t.workers && Contends(t, t.workers[v], id, status);
    }
  }

  lemma FromOwner(cfg: Config, s: State, w: nat, id: nat)
    requires Going(cfg, s) && Saves(cfg, s, Worker(s, w), id)
    ensures Endable(cfg, s, id)
  {
    if Worker(s, w).stage == SavingRetry {
      var a := ByWorker(w, Save(Applied));
      WorkerIsOk(cfg, s, w);
      GoingStep(cfg, s, a);
      SaveKeepsMovable(cfg, s, w, id, Retrying);
      FromMovable(cfg, Apply(cfg, s, a), id);
      StepBack(cfg, s, a, id);
    } else {
      FromActing(cfg, s, w, id);
    }
  }

  // ----- From a pending delivery

  lemma FromPromoting(cfg: Config, s: State, id: nat)
    requires Going(cfg, s) && Scheduler(s, 0).Promoting? && Scheduler(s, 0).d.id == id
    ensures Endable(cfg, s, id)
  {
    SchedulerIsOk(cfg, s);
    var a := ByScheduler(0, Promote(Applied));
    GoingStep(cfg, s, a);
    FromEnqueuing(cfg, Apply(cfg, s, a), id);
    StepBack(cfg, s, a, id);
  }

  /** The scheduler skips the deliveries before `id`, and promotes it. */
  lemma FromScanning(cfg: Config, s: State, id: nat)
    requires Going(cfg, s) && HasStatus(s.db, id, Pending) && Scheduler(s, 0).Scanning? && id in Scheduler(s, 0).todo
    ensures Endable(cfg, s, id)
    decreases |Scheduler(s, 0).todo|
  {
    RowIsOk(cfg, s, id);
    var head := Scheduler(s, 0).todo[0];
    var a := ByScheduler(0, Load(head == id));
    GoingStep(cfg, s, a);
    var t := Apply(cfg, s, a);
    if head == id { FromPromoting(cfg, t, id); } else { FromScanning(cfg, t, id); }
    StepBack(cfg, s, a, id);
  }

  /** A result that FetchDue may return, with `id` before all rows of the same time. */
  lemma {:induction false} PickDue(scheduled: map<nat, ScheduledRow>, due: set<nat>, limit: nat, id: nat) returns (ids: seq<nat>)
    requires due <= scheduled.Keys && id in scheduled
    ensures |ids| <= limit && forall i :: 0 <= i < |ids| ==> ids[i] in due
    ensures forall i, j :: 0 <= i < j < |ids| ==> ids[i] != ids[j] && scheduled[ids[i]].at <= scheduled[ids[j]].at
    ensures forall x :: x in due && x !in ids ==>
              |ids| == limit && forall i :: 0 <= i < |ids| ==> scheduled[ids[i]].at <= scheduled[x].at
    ensures id in due && id !in ids ==> forall i :: 0 <= i < |ids| ==> scheduled[ids[i]].at < scheduled[id].at
    decreases limit
  {
    if due == {} || limit == 0 {
      ids := [];
    } else {
      EarliestExists(scheduled, due);
      var m :| Earliest(scheduled, due, m);
      if Earliest(scheduled, due, id) { m := id; }
      var rest := PickDue(scheduled, due - {m}, limit - 1, id);
      ids := [m] + rest;
      assert forall x :: x in due && x !in ids ==> x in due - {m} && x !in rest;
    }
  }

  lemma FetchedDue(cfg: Config, s: State, id: nat) returns (ids: seq<nat>)
    requires IsDue(s, id)
    ensures CanFetchDue(cfg, s, ids)
    ensures id !in ids ==> |ids| == cfg.batch && forall i :: 0 <= i < |ids| ==> s.db.scheduled[ids[i]].at < s.db.scheduled[id].at
  {
    var due := set x | x in s.db.scheduled.Keys && IsDue(s, x);
    ids := PickDue(s.db.scheduled, due, cfg.batch, id);
    assert forall x :: IsDueAt(s.db.scheduled, s.now, x) <==> x in due;
  }

  /** The rows that will be promoted before that of the delivery. */
  ghost function Ahead(s: State, id: nat): set<nat>
    requires id in s.db.scheduled
  {
    set x | x in s.db.scheduled && !s.db.scheduled[x].processed && HasStatus(s.db, x, Pending)
            && s.db.scheduled[x].at < s.db.scheduled[id].at
  }

  /** Fewer rows than a batch are stuck before the pending delivery. */
  ghost predicate Unblocked(cfg: Config, s: State, id: nat) {
    HasStatus(s.db, id, Pending) && id in s.db.scheduled && |Blockers(s, id)| < cfg.batch
  }

  lemma AheadIsPromotable(cfg: Config, s: State, ids: seq<nat>, id: nat) returns (x: nat)
    requires RowsInv(cfg, s) && Unblocked(cfg, s, id) && Scheduler(s, 0).Sleeping? && CanFetchDue(cfg, s, ids)
    requires |ids| == cfg.batch && forall i :: 0 <= i < |ids| ==> s.db.scheduled[ids[i]].at < s.db.scheduled[id].at
    ensures x in ids && x in Ahead(s, id)
  {
    DistinctSize(ids);
    if Elements(ids) <= Blockers(s, id) {
      SubsetIsSmaller(Elements(ids), Blockers(s, id));
      assert false;
    }
    x :| x in Elements(ids) && x !in Blockers(s, id);
    var i :| 0 <= i < |ids| && ids[i] == x;
    assert IsDueAt(s.db.scheduled, s.now, ids[i]);
  }

  /** The step keeps the schedule but for marking `x`, and leaves the scheduler with `x` in hand or without it. */
  lemma BlockersKept(s: State, t: State, id: nat)
    requires id in s.db.scheduled && id in t.db.scheduled && t.db.scheduled[id].at == s.db.scheduled[id].at
    requires forall x :: x in t.db.scheduled && Stuck(t, x) ==> x in s.db.scheduled && Stuck(s, x) && s.db.scheduled[x].at == t.db.scheduled[x].at
    ensures |Blockers(t, id)| <= |Blockers(s, id)|
  {
    SubsetIsSmaller(Blockers(t, id), Blockers(s, id));
  }

  // Between the calls of the scheduler, blockers do not come up and rows ahead do not either.

  lemma SchedulerAddsNoBlocker(cfg: Config, s: State, op: SchedulerOp, id: nat)
    requires cfg.oneScheduler && SchedulersInv(cfg, s) && SchedulerCan(cfg, s, 0, op) && !Jams(s, ByScheduler(0, op)) && id in s.db.scheduled
    ensures var t := SchedulerDoes(cfg, s, 0, op);
            && id in t.db.scheduled && |Blockers(t, id)| <= |Blockers(s, id)|
            && Ahead(t, id) <= Ahead(s, id)
  {
    var t := SchedulerDoes(cfg, s, 0, op);
    assert SchedulerOk(cfg, s, Scheduler(s, 0));
    BlockersKept(s, t, id);
  }

  /** A harmless call of the scheduler that is not for `id` leaves it promotable, if only by a new fetch. */
  lemma SchedulerCall(cfg: Config, s: State, op: SchedulerOp, id: nat)
    requires Going(cfg, s) && HasStatus(s.db, id, Pending) && SchedulerCan(cfg, s, 0, op) && !Jams(s, ByScheduler(0, op))
    requires !(op.Promote? && Scheduler(s, 0).d.id == id)
    ensures var t := SchedulerDoes(cfg, s, 0, op);
            && Going(cfg, t) && HasStatus(t.db, id, Pending) && id in s.db.scheduled && id in t.db.scheduled
            && |Blockers(t, id)| <= |Blockers(s, id)| && |Ahead(t, id)| <= |Ahead(s, id)|
  {
    RowIsOk(cfg, s, id);
    SchedulerIsOk(cfg, s);
    GoingStep(cfg, s, ByScheduler(0, op));
    SchedulerAddsNoBlocker(cfg, s, op, id);
    SubsetIsSmaller(Ahead(SchedulerDoes(cfg, s, 0, op), id), Ahead(s, id));
  }

  lemma PromotedLeavesAhead(cfg: Config, s: State, x: nat, id: nat)
    requires Scheduler(s, 0).Promoting? && Scheduler(s, 0).d.id == x && Scheduler(s, 0).d.status == Queued
    requires id in s.db.scheduled && x in Ahead(s, id)
    ensures var t := SchedulerDoes(cfg, s, 0, Promote(Applied));
            id in t.db.scheduled && (Ahead(t, id) <= Ahead(s, id) ==> |Ahead(t, id)| < |Ahead(s, id)|)
  {
    var t := SchedulerDoes(cfg, s, 0, Promote(Applied));
    assert x !in Ahead(t, id);
    if Ahead(t, id) <= Ahead(s, id) {
      SubsetIsSmaller(Ahead(t, id), Ahead(s, id) - {x});
    }
  }

  predicate ComesTo(pc: SchedulerPc, x: nat) {
    (pc.Scanning? && x in pc.todo) || (pc.Promoting? && pc.d.id == x)
  }

  /** The scheduler skips the rows before `x`, and promotes it. */
  lemma FromOther(cfg: Config, s: State, x: nat, id: nat)
    requires Going(cfg, s) && Unblocked(cfg, s, id) && x in Ahead(s, id) && ComesTo(Scheduler(s, 0), x)
    ensures Endable(cfg, s, id)
    decreases |Ahead(s, id)|, 1, Scheduler(s, 0).Scanning?, |Scheduler(s, 0).todo|
  {
    var pc := Scheduler(s, 0);
    var op := if pc.Promoting? then Promote(Applied) else Load(pc.todo[0] == x);
    var a := ByScheduler(0, op);
    SchedulerCall(cfg, s, op, id);
    var t := Apply(cfg, s, a);
    if pc.Promoting? {
      SchedulerIsOk(cfg, s);
      SchedulerAddsNoBlocker(cfg, s, op, id);
      PromotedLeavesAhead(cfg, s, x, id);
      FromBusyScheduler(cfg, t, id);
    } else {
      RowIsOk(cfg, s, x);
      assert Ahead(t, id) == Ahead(s, id);
      FromOther(cfg, t, x, id);
    }
    StepBack(cfg, s, a, id);
  }

  lemma FromDue(cfg: Config, s: State, id: nat)
    requires Going(cfg, s) && Unblocked(cfg, s, id) && Scheduler(s, 0).Sleeping? && IsDue(s, id)
    ensures Endable(cfg, s, id)
    decreases |Ahead(s, id)|, 2
  {
    var ids := FetchedDue(cfg, s, id);
    var op := FetchDue(ids);
    var a := ByScheduler(0, op);
    SchedulerCall(cfg, s, op, id);
    var t := Apply(cfg, s, a);
    if id in ids {
      FromScanning(cfg, t, id);
    } else {
      RowsAreOk(cfg, s);
      var x := AheadIsPromotable(cfg, s, ids, id);
      assert Ahead(t, id) == Ahead(s, id);
      FromOther(cfg, t, x, id);
    }
    StepBack(cfg, s, a, id);
  }

  lemma FromIdleScheduler(cfg: Config, s: State, id: nat)
    requires Going(cfg, s) && Unblocked(cfg, s, id) && Scheduler(s, 0).Sleeping?
    ensures Endable(cfg, s, id)
    decreases |Ahead(s, id)|, 3
  {
    RowIsOk(cfg, s, id);
    var at := s.db.scheduled[id].at;
    var a := Tick(if at > s.now then at else s.now);
    GoingStep(cfg, s, a);
    var t := Apply(cfg, s, a);
    BlockersKept(s, t, id);
    assert Ahead(t, id) == Ahead(s, id);
    FromDue(cfg, t, id);
    StepBack(cfg, s, a, id);
  }

  function Calls(pc: SchedulerPc): nat {
    match pc
    case Promoting(_, _, _) => 3
    case Enqueuing(_, _, _) => 2
    case Finishing(_, _, _) => 1
    case _ => 0
  }

  /** The scheduler goes on with what it has in hand, and starts anew if `id` is not still to come. */
  function NextCall(pc: SchedulerPc, id: nat): SchedulerOp {
    match pc
    case Enqueuing(_, _, _) => Enqueue(Applied)
    case Finishing(_, _, _) => MarkDone(Applied)
    case Promoting(_, todo, _) => if id in todo then Promote(Applied) else Restart
    case _ => Restart
  }

  lemma NextCallIsAllowed(cfg: Config, s: State, id: nat)
    requires !Scheduler(s, 0).Sleeping? && !ComesTo(Scheduler(s, 0), id)
    ensures var op := NextCall(Scheduler(s, 0), id);
            && SchedulerCan(cfg, s, 0, op) && !Jams(s, ByScheduler(0, op)) && !(op.Promote? && Scheduler(s, 0).d.id == id)
            && var pc := Scheduler(SchedulerDoes(cfg, s, 0, op), 0);
               && (pc.Sleeping? || (Calls(pc) < Calls(Scheduler(s, 0)) && (Wanted(Scheduler(s, 0), id) ==> Wanted(pc, id))))
               && (op.Restart? ==> !Wanted(Scheduler(s, 0), id))
  {
  }

  lemma NextCallIsHarmless(cfg: Config, s: State, id: nat)
    requires Going(cfg, s) && HasStatus(s.db, id, Pending) && Promotable(cfg, s, id)
    requires !Scheduler(s, 0).Sleeping? && !ComesTo(Scheduler(s, 0), id)
    ensures var op := NextCall(Scheduler(s, 0), id);
            && SchedulerCan(cfg, s, 0, op) && !Jams(s, ByScheduler(0, op))
            && var t := SchedulerDoes(cfg, s, 0, op);
               && Going(cfg, t) && HasStatus(t.db, id, Pending) && Promotable(cfg, t, id) && |Ahead(t, id)| <= |Ahead(s, id)|
               && (Scheduler(t, 0).Sleeping? || Calls(Scheduler(t, 0)) < Calls(Scheduler(s, 0)))
  {
    NextCallIsAllowed(cfg, s, id);
    SchedulerCall(cfg, s, NextCall(Scheduler(s, 0), id), id);
  }

  lemma FromBusyScheduler(cfg: Config, s: State, id: nat)
    requires Going(cfg, s) && HasStatus(s.db, id, Pending) && Promotable(cfg, s, id)
    ensures Endable(cfg, s, id)
    decreases |Ahead(s, id)|, 4, Calls(Scheduler(s, 0))
  {
    var pc := Scheduler(s, 0);
    if pc.Sleeping? {
      FromIdleScheduler(cfg, s, id);
    } else if ComesTo(pc, id) {
      if pc.Scanning? { FromScanning(cfg, s, id); } else { FromPromoting(cfg, s, id); }
    } else {
      var op := NextCall(pc, id);
      var a := ByScheduler(0, op);
      NextCallIsHarmless(cfg, s, id);
      var t := SchedulerDoes(cfg, s, 0, op);
      if Scheduler(t, 0).Sleeping? { FromIdleScheduler(cfg, t, id); } else { FromBusyScheduler(cfg, t, id); }
      assert t == Apply(cfg, s, a);
      StepBack(cfg, s, a, id);
    }
  }

  // ----- The theorem

  /** An alive delivery can be finished, by a run that strands and jams nothing. */
  lemma AliveIsFinishable(cfg: Config, s: State, id: nat)
    requires Going(cfg, s) && Alive(cfg, s, id)
    ensures Finishable(cfg, s, id)
  {
    RowIsOk(cfg, s, id);
    match s.db.deliveries[id].status {
      case Pending => FromBusyScheduler(cfg, s, id);
      case Queued | Retrying => FromMovable(cfg, s, id);
      case Processing =>
        var w :| w in s.workers && Saves(cfg, s, s.workers[w], id);
        FromOwner(cfg, s, w, id);
      case _ => StayEnded(cfg, s, id);
    }
    EndableIsFinishable(cfg, s, id);
  }
}
