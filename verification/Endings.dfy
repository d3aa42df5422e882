/**
  What can never be finished. A delivery that is not alive stays so whatever happens, and
  so `Alive` is exactly the condition under which a delivery can still be finished.
*/
module Endings {
  import opened Wrappers
  import opened Sets
  import opened Notification
  import opened Protocol
  import opened Frames
  import opened Safety
  import opened Guarantees
  import opened Carriers
  import opened Progress

  // ----- Pending behind a batch of stuck rows

  /** A full batch of stuck rows is due before `id`, which is not in the scheduler's hands. */
  ghost predicate Jammed(cfg: Config, s: State, id: nat, stuck: set<nat>) {
    && |stuck| >= cfg.batch
    && HasStatus(s.db, id, Pending) && id in s.db.scheduled
    && (forall x :: x in stuck ==> Stuck(s, x) && s.db.scheduled[x].at < s.db.scheduled[id].at)
    && !Wanted(Scheduler(s, 0), id)
  }

  lemma FetchMissesJammed(cfg: Config, s: State, id: nat, stuck: set<nat>, ids: seq<nat>)
    requires Jammed(cfg, s, id, stuck) && CanFetchDue(cfg, s, ids)
    ensures id !in ids
  {
    if id in ids {
      assert stuck <= Elements(ids) - {id} by {
        forall x | x in stuck ensures x in ids && x != id {
          assert Stuck(s, x);
        }
      }
      DistinctSize(ids);
      SubsetIsSmaller(stuck, Elements(ids) - {id});
    }
  }

  lemma NeverWanted(cfg: Config, s: State, k: nat, op: SchedulerOp, id: nat, stuck: set<nat>)
    requires cfg.oneScheduler && SchedulersInv(cfg, s) && RowsInv(cfg, s) && SchedulerCan(cfg, s, k, op) && Jammed(cfg, s, id, stuck)
    ensures var t := SchedulerDoes(cfg, s, k, op);
            !Wanted(Scheduler(t, 0), id) && HasStatus(t.db, id, Pending)
  {
    match op
    case FetchDue(ids) => FetchMissesJammed(cfg, s, id, stuck, ids);
    case Load(ok) =>
      if HasStatus(s.db, Scheduler(s, k).todo[0], Pending) { assert RowOk(cfg, s, Scheduler(s, k).todo[0]); }
      LoadKeepsUnwanted(s, k, ok, id);
    case _ => UnwantedStays(cfg, s, k, op, id);
  }

  lemma LoadKeepsUnwanted(s: State, k: nat, ok: bool, id: nat)
    requires Scheduler(s, k).Scanning? && |Scheduler(s, k).todo| > 0 && !Wanted(Scheduler(s, k), id)
    requires var head := Scheduler(s, k).todo[0]; HasStatus(s.db, head, Pending) ==> s.db.deliveries[head].id == head
    ensures !Wanted(AfterLoad(s, k, ok), id)
  {
    var todo := Scheduler(s, k).todo;
    assert todo == [todo[0]] + todo[1..];
  }

  lemma UnwantedStays(cfg: Config, s: State, k: nat, op: SchedulerOp, id: nat)
    requires cfg.oneScheduler && SchedulersInv(cfg, s) && SchedulerCan(cfg, s, k, op) && !op.FetchDue? && !op.Load?
    requires HasStatus(s.db, id, Pending) && !Wanted(Scheduler(s, 0), id)
    ensures var t := SchedulerDoes(cfg, s, k, op);
            !Wanted(Scheduler(t, 0), id) && HasStatus(t.db, id, Pending)
  {
  }

  lemma StaysStuck(cfg: Config, s: State, k: nat, op: SchedulerOp, x: nat)
    requires cfg.oneScheduler && SchedulersInv(cfg, s) && RowsInv(cfg, s) && SchedulerCan(cfg, s, k, op) && Stuck(s, x)
    ensures Stuck(SchedulerDoes(cfg, s, k, op), x)
  {
    assert SchedulerOk(cfg, s, Scheduler(s, k));
    if op.Promote? || op.Enqueue? || op.MarkDone? {
      WriteLeavesStuck(cfg, s, k, op, x);
    } else {
      ReadLeavesStuck(cfg, s, k, op, x);
    }
  }

  lemma WriteLeavesStuck(cfg: Config, s: State, k: nat, op: SchedulerOp, x: nat)
    requires cfg.oneScheduler && SchedulerOk(cfg, s, Scheduler(s, k)) && SchedulerCan(cfg, s, k, op) && Stuck(s, x)
    requires (op.Promote? || op.Enqueue? || op.MarkDone?) && (k != 0 ==> Scheduler(s, k).Sleeping?)
    ensures Stuck(SchedulerDoes(cfg, s, k, op), x)
  {
  }

  lemma ReadLeavesStuck(cfg: Config, s: State, k: nat, op: SchedulerOp, x: nat)
    requires SchedulerCan(cfg, s, k, op) && Stuck(s, x)
    requires !op.Promote? && !op.Enqueue? && !op.MarkDone?
    ensures Stuck(SchedulerDoes(cfg, s, k, op), x)
  {
  }

  lemma JammedScheduler(cfg: Config, s: State, k: nat, op: SchedulerOp, id: nat, stuck: set<nat>)
    requires cfg.oneScheduler && SchedulersInv(cfg, s) && RowsInv(cfg, s) && SchedulerCan(cfg, s, k, op) && Jammed(cfg, s, id, stuck)
    ensures Jammed(cfg, SchedulerDoes(cfg, s, k, op), id, stuck)
  {
    var t := SchedulerDoes(cfg, s, k, op);
    NeverWanted(cfg, s, k, op, id, stuck);
    forall x | x in stuck ensures Stuck(t, x) {
      assert Stuck(s, x);
      StaysStuck(cfg, s, k, op, x);
    }
  }

  lemma JammedClient(cfg: Config, s: State, c: nat, op: ClientOp, id: nat, stuck: set<nat>)
    requires ClientOk(cfg, s, Client(s, c)) && ClientCan(s, c, op) && Jammed(cfg, s, id, stuck)
    ensures Jammed(cfg, ClientDoes(cfg, s, c, op), id, stuck)
  {
    var t := ClientDoes(cfg, s, c, op);
    ClientFrame(cfg, s, c, op);
    ClientStatusStep(cfg, s, c, op, id);
    ClientKeepsSchedule(cfg, s, c, op, id);
    forall x | x in stuck ensures Stuck(t, x) && t.db.scheduled[x].at == s.db.scheduled[x].at {
      assert Stuck(s, x);
      ClientStatusStep(cfg, s, c, op, x);
      ClientKeepsSchedule(cfg, s, c, op, x);
    }
  }

  lemma JammedBystander(cfg: Config, s: State, a: Action, id: nat, stuck: set<nat>)
    requires cfg.oneScheduler && Inv(cfg, s) && Enabled(cfg, s, a) && !a.ByScheduler? && !a.ByClient? && Jammed(cfg, s, id, stuck)
    ensures Jammed(cfg, Apply(cfg, s, a), id, stuck)
  {
    var t := Apply(cfg, s, a);
    OthersKeepSchedule(cfg, s, a);
    OthersKeepPending(cfg, s, a, id);
    forall x | x in stuck ensures Stuck(t, x) {
      BystanderLeavesStuck(cfg, s, a, x);
    }
  }

  lemma BystanderLeavesStuck(cfg: Config, s: State, a: Action, x: nat)
    requires Inv(cfg, s) && Enabled(cfg, s, a) && !a.ByScheduler? && !a.ByClient? && Stuck(s, x)
    ensures Stuck(Apply(cfg, s, a), x)
  {
    OthersKeepSchedule(cfg, s, a);
    StatusStep(cfg, s, a, x);
  }

  lemma JammedStep(cfg: Config, s: State, a: Action, id: nat, stuck: set<nat>)
    requires cfg.oneScheduler && Inv(cfg, s) && Enabled(cfg, s, a) && Jammed(cfg, s, id, stuck)
    ensures Jammed(cfg, Apply(cfg, s, a), id, stuck)
  {
    match a
    case ByScheduler(k, op) => JammedScheduler(cfg, s, k, op, id, stuck);
    case ByClient(c, op) =>
      assert ClientOk(cfg, s, Client(s, c));
      JammedClient(cfg, s, c, op, id, stuck);
    case _ => JammedBystander(cfg, s, a, id, stuck);
  }

  /** A jammed delivery is never promoted, whatever happens and however long. */
  lemma {:induction false} JammedForever(cfg: Config, s: State, acts: seq<Action>, id: nat, stuck: set<nat>)
    requires cfg.oneScheduler && Reachable(cfg, s) && Jammed(cfg, s, id, stuck) && RunFrom(cfg, s, acts).Some?
    ensures Jammed(cfg, RunFrom(cfg, s, acts).value, id, stuck)
  {
    if acts != [] {
      var before := acts[..|acts| - 1];
      JammedForever(cfg, s, before, id, stuck);
      ReachableInv(cfg, s);
      RunKeepsInv(cfg, s, before);
      JammedStep(cfg, RunFrom(cfg, s, before).value, acts[|acts| - 1], id, stuck);
    }
  }

  lemma JammedIsNeverFinished(cfg: Config, s: State, id: nat, stuck: set<nat>)
    requires cfg.oneScheduler && Reachable(cfg, s) && Jammed(cfg, s, id, stuck)
    ensures !EverFinished(cfg, s, id)
  {
    forall acts | RunFrom(cfg, s, acts).Some? ensures !Finished(RunFrom(cfg, s, acts).value, id) {
      JammedForever(cfg, s, acts, id, stuck);
    }
  }

  // ----- Nothing moves it

  /** Nobody is about to write the delivery back as queued, but for a scheduler 0 that has done so. */
  predicate Unwritten(s: State, id: nat) {
    && (forall k :: k in s.schedulers ==>
          && !(s.schedulers[k].Promoting? && s.schedulers[k].d.id == id)
          && (k != 0 ==> !(s.schedulers[k].Enqueuing? && s.schedulers[k].d.id == id)))
    && (forall r :: r in s.replays ==> !(s.replays[r].Saving? && s.replays[r].d.id == id))
  }

  lemma SoundIsUnwritten(cfg: Config, s: State, id: nat)
    requires Sound(cfg) && SchedulersInv(cfg, s) && ReplaysInv(cfg, s)
    requires id in s.db.deliveries && s.db.deliveries[id].status !in {Pending, Dlq}
    ensures Unwritten(s, id)
  {
    forall k | k in s.schedulers
      ensures !(s.schedulers[k].Promoting? && s.schedulers[k].d.id == id)
      ensures k != 0 ==> s.schedulers[k].Sleeping?
    {
      assert SchedulerOk(cfg, s, s.schedulers[k]);
    }
    forall r | r in s.replays ensures !(s.replays[r].Saving? && s.replays[r].d.id == id) {
      assert ReplayOk(cfg, s, s.replays[r]);
    }
  }

  /** What moves the delivery after a step moved it before, unless it comes from where `Movable` has looked already. */
  lemma MovableBefore(cfg: Config, s: State, t: State, id: nat, status: Status)
    requires forall r :: PendingRow(t, id, r) ==> PendingRow(s, id, r) || BeingEnqueued(s, id)
    requires forall p :: p in t.publishers && Publishes(t, t.publishers[p], id) ==>
               HasPendingRow(s, id) || (p in s.publishers && Publishes(s, s.publishers[p], id))
    requires BeingEnqueued(t, id) ==> BeingEnqueued(s, id)
    requires BeingAnnounced(t, id) ==> BeingAnnounced(s, id)
    requires forall c :: CopyOf(cfg, t, id, c) ==> CopyOf(cfg, s, id, c) || BeingPublished(s, id) || BeingAnnounced(s, id)
    requires forall w :: w in t.workers && Contends(t, t.workers[w], id, status) ==>
               HasCopy(cfg, s, id) || (w in s.workers && Contends(s, s.workers[w], id, status))
    requires Movable(cfg, t, id, status)
    ensures Movable(cfg, s, id, status)
  {
    if HasPendingRow(t, id) {
      var r :| PendingRow(t, id, r);
      assert PendingRow(s, id, r) || BeingEnqueued(s, id);
    } else if BeingPublished(t, id) {
      var p :| p in t.publishers && Publishes(t, t.publishers[p], id);
      assert HasPendingRow(s, id) || Publishes(s, s.publishers[p], id);
    } else if HasCopy(cfg, t, id) {
      var c :| CopyOf(cfg, t, id, c);
      assert CopyOf(cfg, s, id, c) || BeingPublished(s, id) || BeingAnnounced(s, id);
    } else if HasContender(t, id, status) {
      var w :| w in t.workers && Contends(t, t.workers[w], id, status);
      assert HasCopy(cfg, s, id) || Contends(s, s.workers[w], id, status);
    }
  }

  lemma ClientMovesNothing(cfg: Config, s: State, c: nat, op: ClientOp, id: nat, status: Status)
    requires ClientOk(cfg, s, Client(s, c)) && ClientCan(s, c, op) && id in s.db.deliveries
    requires Movable(cfg, ClientDoes(cfg, s, c, op), id, status)
    ensures Movable(cfg, s, id, status)
  {
    ClientFrame(cfg, s, c, op);
    MovableBefore(cfg, s, ClientDoes(cfg, s, c, op), id, status);
  }

  lemma CopiesExist(cfg: Config, s: State)
    requires WorkersInv(cfg, s)
    ensures forall w :: w in s.workers && !s.workers[w].Free? ==> s.workers[w].copy.msg < |s.bus.stream|
  {
    forall w | w in s.workers && !s.workers[w].Free? ensures s.workers[w].copy.msg < |s.bus.stream| {
      assert WorkerOk(cfg, s, s.workers[w]);
    }
  }

  lemma PublisherMovesNothing(cfg: Config, s: State, p: nat, op: PublisherOp, id: nat, status: Status)
    requires WorkersInv(cfg, s) && PublisherCan(s, p, op) && Movable(cfg, PublisherDoes(cfg, s, p, op), id, status)
    ensures Movable(cfg, s, id, status)
  {
    var t := PublisherDoes(cfg, s, p, op);
    PublisherFrame(cfg, s, p, op);
    forall c | CopyOf(cfg, t, id, c) ensures CopyOf(cfg, s, id, c) || BeingPublished(s, id) {
      if c.msg == |s.bus.stream| { assert Publishes(s, s.publishers[p], id); }
    }
    if op.Check? && t.publishers[p].Publishing? {
      var r := t.publishers[p].row;
      assert !s.db.outbox[r].published;
      if s.db.outbox[r].delivery == id { assert PendingRow(s, id, r); }
    }
    CopiesExist(cfg, s);
    MovableBefore(cfg, s, t, id, status);
  }

  lemma SchedulerMovesNothing(cfg: Config, s: State, k: nat, op: SchedulerOp, id: nat, status: Status)
    requires PublishersInv(s) && RowsInv(cfg, s) && SchedulerCan(cfg, s, k, op) && Unwritten(s, id)
    requires id in s.db.deliveries && s.db.deliveries[id].status != Pending
    requires Movable(cfg, SchedulerDoes(cfg, s, k, op), id, status)
    ensures Movable(cfg, s, id, status)
  {
    SchedulerFrame(cfg, s, k, op);
    forall p | p in s.publishers ensures s.publishers[p].Publishing? ==> s.publishers[p].row < |s.db.outbox| {
      assert PublisherOk(s, s.publishers[p]);
    }
    MovableBefore(cfg, s, SchedulerDoes(cfg, s, k, op), id, status);
  }

  lemma WorkerContends(cfg: Config, s: State, w: nat, op: WorkerOp, id: nat, status: Status)
    requires WorkerCan(cfg, s, w, op) && RowsInv(cfg, s)
    requires Contends(s, Worker(WorkerDoes(cfg, s, w, op), w), id, status)
    ensures HasCopy(cfg, s, id) || (w in s.workers && Contends(s, s.workers[w], id, status))
  {
    match op
    case Pull(copy) => assert CopyOf(cfg, s, id, copy);
    case Find(_) =>
      var found := s.bus.stream[Worker(s, w).copy.msg].delivery;
      assert RowOk(cfg, s, found);
    case _ =>
  }

  lemma WorkerMovesNothing(cfg: Config, s: State, w: nat, op: WorkerOp, id: nat, status: Status)
    requires WorkerCan(cfg, s, w, op) && RowsInv(cfg, s)
    requires Movable(cfg, WorkerDoes(cfg, s, w, op), id, status)
    ensures Movable(cfg, s, id, status)
  {
    var t := WorkerDoes(cfg, s, w, op);
    WorkerFrame(cfg, s, w, op);
    if Contends(s, Worker(t, w), id, status) { WorkerContends(cfg, s, w, op, id, status); }
    WorkerMovedBefore(cfg, s, t, w, id, status);
  }

  lemma WorkerMovedBefore(cfg: Config, s: State, t: State, w: nat, id: nat, status: Status)
    requires t.db.outbox == s.db.outbox && t.publishers == s.publishers && t.schedulers == s.schedulers && t.replays == s.replays
    requires t.bus.stream == s.bus.stream && s.bus.acked <= t.bus.acked && t.workers == s.workers[w := Worker(t, w)]
    requires Contends(s, Worker(t, w), id, status) ==>
               HasCopy(cfg, s, id) || (w in s.workers && Contends(s, s.workers[w], id, status))
    requires Movable(cfg, t, id, status)
    ensures Movable(cfg, s, id, status)
  {
    MovableBefore(cfg, s, t, id, status);
  }

  lemma ReplayMovesNothing(cfg: Config, s: State, r: nat, op: ReplayOp, id: nat, status: Status)
    requires WorkersInv(cfg, s) && ReplayCan(cfg, s, r, op) && Unwritten(s, id)
    requires Movable(cfg, ReplayDoes(cfg, s, r, op), id, status)
    ensures Movable(cfg, s, id, status)
  {
    var t := ReplayDoes(cfg, s, r, op);
    ReplayFrame(cfg, s, r, op);
    if BeingAnnounced(t, id) {
      var q :| q in t.replays && t.replays[q].Announcing? && t.replays[q].id == id;
      assert q in s.replays && s.replays[q] == t.replays[q];
    }
    forall c | CopyOf(cfg, t, id, c) ensures CopyOf(cfg, s, id, c) || BeingAnnounced(s, id) {
      if c.msg == |s.bus.stream| { assert s.replays[r].Announcing? && s.replays[r].id == id; }
    }
    CopiesExist(cfg, s);
    MovableBefore(cfg, s, t, id, status);
  }

  /** Whatever moves a claimable or claimed delivery after a step moved it before. */
  lemma NothingMovesNothing(cfg: Config, s: State, a: Action, id: nat, status: Status)
    requires Inv(cfg, s) && Enabled(cfg, s, a) && Unwritten(s, id)
    requires id in s.db.deliveries && s.db.deliveries[id].status in {Queued, Processing, Retrying}
    requires Movable(cfg, Apply(cfg, s, a), id, status)
    ensures Movable(cfg, s, id, status)
  {
    ProcessesAt(cfg, s);
    match a
    case ByClient(c, op) => ClientMovesNothing(cfg, s, c, op, id, status);
    case ByPublisher(p, op) => PublisherMovesNothing(cfg, s, p, op, id, status);
    case ByScheduler(k, op) => SchedulerMovesNothing(cfg, s, k, op, id, status);
    case ByWorker(w, op) => WorkerMovesNothing(cfg, s, w, op, id, status);
    case ByReplay(r, op) => ReplayMovesNothing(cfg, s, r, op, id, status);
    case Tick(now) => MovableBefore(cfg, s, s.(now := now), id, status);
  }

  // ----- The dead stay dead

  /** A delivery that waits to be claimed, that nothing moves, and that nobody writes to. */
  ghost predicate Stalled(cfg: Config, s: State, id: nat) {
    && Startable(s, id) && !Movable(cfg, s, id, s.db.deliveries[id].status)
    && Unwritten(s, id) && forall w :: !Owns(Worker(s, w), id)
  }

  lemma UnmovedIsStalled(cfg: Config, s: State, id: nat)
    requires Sound(cfg) && Inv(cfg, s) && Startable(s, id) && !Movable(cfg, s, id, s.db.deliveries[id].status)
    ensures Stalled(cfg, s, id)
  {
    SoundIsUnwritten(cfg, s, id);
    forall w ensures !Owns(Worker(s, w), id) {
      WorkerAt(cfg, s, w);
    }
  }

  lemma StalledWorker(cfg: Config, s: State, w: nat, op: WorkerOp, id: nat)
    requires WorkerOk(cfg, s, Worker(s, w)) && WorkerCan(cfg, s, w, op) && Stalled(cfg, s, id)
    ensures var t := WorkerDoes(cfg, s, w, op);
            && id in t.db.deliveries && t.db.deliveries[id] == s.db.deliveries[id] && !Owns(Worker(t, w), id)
  {
    assert !Owns(Worker(s, w), id);
    if op.Claim? { assert !Contends(s, s.workers[w], id, s.db.deliveries[id].status); }
  }

  lemma StalledScheduler(cfg: Config, s: State, k: nat, op: SchedulerOp, id: nat)
    requires RowsInv(cfg, s) && SchedulerCan(cfg, s, k, op) && Stalled(cfg, s, id)
    ensures var t := SchedulerDoes(cfg, s, k, op);
            && id in t.db.deliveries && t.db.deliveries[id] == s.db.deliveries[id] && Unwritten(t, id)
  {
    if op.Load? && HasStatus(s.db, Scheduler(s, k).todo[0], Pending) { assert RowOk(cfg, s, Scheduler(s, k).todo[0]); }
    SchedulerStaysOff(cfg, s, k, op, id);
  }

  /** A scheduler that is not about to write to the delivery does not, and will not be after this step. */
  lemma SchedulerStaysOff(cfg: Config, s: State, k: nat, op: SchedulerOp, id: nat)
    requires SchedulerCan(cfg, s, k, op) && Startable(s, id) && Unwritten(s, id)
    requires op.Load? ==>
               var head := Scheduler(s, k).todo[0]; HasStatus(s.db, head, Pending) ==> s.db.deliveries[head].id == head
    ensures var t := SchedulerDoes(cfg, s, k, op);
            && id in t.db.deliveries && t.db.deliveries[id] == s.db.deliveries[id] && Unwritten(t, id)
  {
  }

  lemma StalledReplay(cfg: Config, s: State, r: nat, op: ReplayOp, id: nat)
    requires RowsInv(cfg, s) && ReplayCan(cfg, s, r, op) && Stalled(cfg, s, id)
    ensures var t := ReplayDoes(cfg, s, r, op);
            && id in t.db.deliveries && t.db.deliveries[id] == s.db.deliveries[id] && Unwritten(t, id)
  {
    ReplayFrame(cfg, s, r, op);
    if op.Open? { assert RowOk(cfg, s, op.id); }
  }

  lemma StalledRowStays(cfg: Config, s: State, a: Action, id: nat)
    requires Inv(cfg, s) && Enabled(cfg, s, a) && Stalled(cfg, s, id)
    ensures var t := Apply(cfg, s, a);
            && id in t.db.deliveries && t.db.deliveries[id] == s.db.deliveries[id] && Unwritten(t, id)
            && (a.ByWorker? ==> !Owns(Worker(t, a.w), id))
  {
    ProcessesAt(cfg, s);
    match a
    case ByClient(c, op) => ClientFrame(cfg, s, c, op); ClientStatusStep(cfg, s, c, op, id);
    case ByPublisher(p, op) => PublisherFrame(cfg, s, p, op);
    case ByScheduler(k, op) => StalledScheduler(cfg, s, k, op, id);
    case ByWorker(w, op) => WorkerFrame(cfg, s, w, op); StalledWorker(cfg, s, w, op, id);
    case ByReplay(r, op) => StalledReplay(cfg, s, r, op, id);
    case _ =>
  }

  /** In any deployment it stays as it is, whatever happens. */
  lemma StalledStep(cfg: Config, s: State, a: Action, id: nat)
    requires Inv(cfg, s) && Enabled(cfg, s, a) && Stalled(cfg, s, id)
    ensures Stalled(cfg, Apply(cfg, s, a), id) && Apply(cfg, s, a).db.deliveries[id] == s.db.deliveries[id]
  {
    var t, status := Apply(cfg, s, a), s.db.deliveries[id].status;
    StalledRowStays(cfg, s, a, id);
    if Movable(cfg, t, id, status) { NothingMovesNothing(cfg, s, a, id, status); }
    forall w ensures !Owns(Worker(t, w), id) {
      assert !Owns(Worker(s, w), id);
      if !(a.ByWorker? && a.w == w) { OthersKeepWorker(cfg, s, a, w); }
    }
  }

  lemma {:induction false} StalledForever(cfg: Config, s: State, acts: seq<Action>, id: nat)
    requires Reachable(cfg, s) && Stalled(cfg, s, id) && RunFrom(cfg, s, acts).Some?
    ensures var t := RunFrom(cfg, s, acts).value;
            Inv(cfg, t) && Stalled(cfg, t, id) && t.db.deliveries[id] == s.db.deliveries[id]
  {
    ReachableInv(cfg, s);
    RunKeepsInv(cfg, s, acts);
    if acts != [] {
      var before := acts[..|acts| - 1];
      StalledForever(cfg, s, before, id);
      StalledStep(cfg, RunFrom(cfg, s, before).value, acts[|acts| - 1], id);
    }
  }

  lemma StalledIsNeverFinished(cfg: Config, s: State, id: nat)
    requires Reachable(cfg, s) && Stalled(cfg, s, id)
    ensures !EverFinished(cfg, s, id)
  {
    forall acts | RunFrom(cfg, s, acts).Some? ensures !Finished(RunFrom(cfg, s, acts).value, id) {
      StalledForever(cfg, s, acts, id);
    }
  }

  /** A processing delivery whose owner, if there is one, can only store it for a retry that never comes. */
  ghost predicate Doomed(cfg: Config, s: State, id: nat) {
    && HasStatus(s.db, id, Processing)
    && forall w :: w in s.workers ==> !Saves(cfg, s, s.workers[w], id)
  }

  lemma DoomedOwnerStep(cfg: Config, s: State, w: nat, op: WorkerOp, id: nat)
    requires Sound(cfg) && WorkerOk(cfg, s, Worker(s, w)) && WorkerCan(cfg, s, w, op) && Owns(Worker(s, w), id)
    requires Worker(s, w).stage == SavingRetry
    ensures var t := WorkerDoes(cfg, s, w, op);
            && !Owns(Worker(t, w), id) && id in t.db.deliveries && t.db.deliveries[id].status in {Processing, Retrying}
  {
  }

  lemma DoomedStep(cfg: Config, s: State, a: Action, id: nat)
    requires Sound(cfg) && Inv(cfg, s) && Enabled(cfg, s, a) && Doomed(cfg, s, id)
    ensures !Alive(cfg, Apply(cfg, s, a), id)
  {
    var t := Apply(cfg, s, a);
    SoundIsUnwritten(cfg, s, id);
    if Movable(cfg, t, id, Retrying) { NothingMovesNothing(cfg, s, a, id, Retrying); }
    if a.ByWorker? && Owns(Worker(s, a.w), id) {
      DoomedOwner(cfg, s, a.w, a.wop, id);
    } else {
      StatusStep(cfg, s, a, id);
      forall w | w in t.workers ensures !Saves(cfg, t, t.workers[w], id) {
        DoomedOther(cfg, s, a, w, id);
      }
    }
  }

  /** A step that is not the owner's gives the delivery no better owner. */
  lemma DoomedOther(cfg: Config, s: State, a: Action, w: nat, id: nat)
    requires Sound(cfg) && Inv(cfg, s) && Enabled(cfg, s, a) && Doomed(cfg, s, id) && !(a.ByWorker? && Owns(Worker(s, a.w), id))
    requires Movable(cfg, Apply(cfg, s, a), id, Retrying) ==> Movable(cfg, s, id, Retrying)
    requires w in Apply(cfg, s, a).workers
    ensures !Saves(cfg, Apply(cfg, s, a), Apply(cfg, s, a).workers[w], id)
  {
    if a.ByWorker? && a.w == w {
      WorkerAt(cfg, s, w);
      NoNewOwner(cfg, s, w, a.wop, id);
    } else {
      OthersKeepWorker(cfg, s, a, w);
      if w in s.workers { assert !Saves(cfg, s, s.workers[w], id); }
    }
  }

  lemma DoomedOwner(cfg: Config, s: State, w: nat, op: WorkerOp, id: nat)
    requires Sound(cfg) && Inv(cfg, s) && WorkerCan(cfg, s, w, op) && Doomed(cfg, s, id) && Owns(Worker(s, w), id)
    requires !Movable(cfg, WorkerDoes(cfg, s, w, op), id, Retrying)
    ensures !Alive(cfg, WorkerDoes(cfg, s, w, op), id)
  {
    var t := WorkerDoes(cfg, s, w, op);
    WorkerAt(cfg, s, w);
    assert !Saves(cfg, s, s.workers[w], id);
    DoomedOwnerStep(cfg, s, w, op, id);
    forall v | v in t.workers ensures !Owns(t.workers[v], id) {
      if v != w {
        OthersKeepWorker(cfg, s, ByWorker(w, op), v);
      }
    }
  }

  lemma DeadStep(cfg: Config, s: State, a: Action, id: nat)
    requires Sound(cfg) && Sane(cfg, s) && Enabled(cfg, s, a) && id in s.db.deliveries && !Alive(cfg, s, id)
    ensures id in Apply(cfg, s, a).db.deliveries && !Alive(cfg, Apply(cfg, s, a), id)
  {
    var d := s.db.deliveries[id];
    assert RowOk(cfg, s, id);
    StatusStep(cfg, s, a, id);
    if d.status == Pending {
      JammedIsDead(cfg, s, a, id);
    } else if d.status == Processing {
      DoomedStep(cfg, s, a, id);
    } else {
      UnmovedIsDead(cfg, s, a, id);
    }
  }

  lemma UnmovedIsDead(cfg: Config, s: State, a: Action, id: nat)
    requires Sound(cfg) && Sane(cfg, s) && Enabled(cfg, s, a) && Startable(s, id) && !Alive(cfg, s, id)
    ensures !Alive(cfg, Apply(cfg, s, a), id)
  {
    UnmovedIsStalled(cfg, s, id);
    StalledStep(cfg, s, a, id);
  }

  lemma JammedIsDead(cfg: Config, s: State, a: Action, id: nat)
    requires Sound(cfg) && Sane(cfg, s) && Enabled(cfg, s, a) && HasStatus(s.db, id, Pending) && !Alive(cfg, s, id)
    ensures !Alive(cfg, Apply(cfg, s, a), id)
  {
    assert RowOk(cfg, s, id);
    var t, stuck := Apply(cfg, s, a), Blockers(s, id);
    JammedStep(cfg, s, a, id, stuck);
    assert stuck <= Blockers(t, id);
    SubsetIsSmaller(stuck, Blockers(t, id));
  }

  lemma {:induction false} DeadForever(cfg: Config, s: State, acts: seq<Action>, id: nat)
    requires Sound(cfg) && Sane(cfg, s) && RunFrom(cfg, s, acts).Some? && id in s.db.deliveries && !Alive(cfg, s, id)
    ensures var t := RunFrom(cfg, s, acts).value;
            Sane(cfg, t) && id in t.db.deliveries && !Alive(cfg, t, id)
  {
    if acts != [] {
      var before, a := acts[..|acts| - 1], acts[|acts| - 1];
      DeadForever(cfg, s, before, id);
      var m := RunFrom(cfg, s, before).value;
      SaneStep(cfg, m, a);
      DeadStep(cfg, m, a, id);
    }
  }

  // ----- The exact condition

  /** Some run at all leads from here to the end of the delivery. */
  ghost predicate EverFinished(cfg: Config, s: State, id: nat) {
    exists acts :: RunFrom(cfg, s, acts).Some? && Finished(RunFrom(cfg, s, acts).value, id)
  }

  /**
    In every reachable state of a sound deployment a delivery can still be finished exactly if it is alive;
    and then it can be finished by a run that strands and jams nothing.
  */
  lemma FinishableExactly(cfg: Config, s: State, id: nat)
    requires Sound(cfg) && Live(cfg) && Reachable(cfg, s) && id in s.db.deliveries
    ensures Finishable(cfg, s, id) <==> Alive(cfg, s, id)
    ensures EverFinished(cfg, s, id) <==> Alive(cfg, s, id)
  {
    ReachableSane(cfg, s);
    if Alive(cfg, s, id) {
      ReachableIsGoing(cfg, s);
      AliveIsFinishable(cfg, s, id);
      SmoothIsARun(cfg, s, id);
    } else {
      forall acts | RunFrom(cfg, s, acts).Some? ensures !Finished(RunFrom(cfg, s, acts).value, id) {
        DeadForever(cfg, s, acts, id);
      }
      if Finishable(cfg, s, id) { SmoothIsARun(cfg, s, id); }
    }
  }

  lemma SmoothIsARun(cfg: Config, s: State, id: nat)
    requires Finishable(cfg, s, id)
    ensures EverFinished(cfg, s, id)
  {
    var t :| Leads(cfg, s, t) && Finished(t, id);
    var acts :| RunFrom(cfg, s, acts) == Some(t) && Smooth(cfg, s, acts);
  }

  // ----- Runs without stranding failures

  /** What has a carrier is alive, but for pending deliveries, which wait for the scheduler. */
  lemma CarriedIsAlive(cfg: Config, s: State, id: nat)
    requires Holding(cfg) && WorkersInv(cfg, s) && CopiesInv(cfg, s) && Carried(cfg, s, id)
    requires id in s.db.deliveries && s.db.deliveries[id].status != Pending
    ensures Alive(cfg, s, id)
  {
    match s.db.deliveries[id].status
    case Queued =>
      if HasOpenRow(s, id) {
        var r :| OpenRow(s, id, r);
        assert PendingRow(s, id, r);
      }
      if HasSafeCopy(cfg, s, id) { SafeCopyIsCopy(cfg, s, id); }
    case Retrying => SafeCopyIsCopy(cfg, s, id);
    case Processing =>
      var w :| w in s.workers && Owns(s.workers[w], id);
      assert WorkerOk(cfg, s, s.workers[w]);
      if cfg.exclusiveHold { assert CopyOf(cfg, s, id, s.workers[w].copy); }
      assert Saves(cfg, s, s.workers[w], id);
    case _ =>
  }

  lemma SafeCopyIsCopy(cfg: Config, s: State, id: nat)
    requires HasSafeCopy(cfg, s, id)
    ensures HasCopy(cfg, s, id)
  {
    var c :| SafeCopy(cfg, s, id, c);
    assert CopyOf(cfg, s, id, c);
  }

  /**
    After any run without a stranding failure, whatever jams it has met, a delivery can still be finished
    exactly if it is not pending, or the scheduler is about to come to it, or fewer rows than a batch are
    stuck before it.
  */
  lemma FinishableUnlessJammed(cfg: Config, acts: seq<Action>, id: nat)
    requires Holding(cfg) && Live(cfg) && RunFrom(cfg, INIT, acts).Some? && Unstranded(cfg, INIT, acts)
    requires id in RunFrom(cfg, INIT, acts).value.db.deliveries
    ensures var s := RunFrom(cfg, INIT, acts).value;
            && (HasStatus(s.db, id, Pending) ==> id in s.db.scheduled)
            && (Finishable(cfg, s, id) <==>
                (HasStatus(s.db, id, Pending) ==> Wanted(Scheduler(s, 0), id) || |Blockers(s, id)| < cfg.batch))
  {
    var s := RunFrom(cfg, INIT, acts).value;
    InitInv(cfg);
    RunKeepsCarried(cfg, INIT, acts);
    assert RowOk(cfg, s, id) && Carried(cfg, s, id);
    if !HasStatus(s.db, id, Pending) { CarriedIsAlive(cfg, s, id); }
    if Alive(cfg, s, id) {
      ReachableIsGoing(cfg, s);
      AliveIsFinishable(cfg, s, id);
    } else {
      JammedIsNeverFinished(cfg, s, id, Blockers(s, id));
      if Finishable(cfg, s, id) { SmoothIsARun(cfg, s, id); }
    }
  }

  /** A crash costs exactly the delivery that the worker owns. */
  lemma CrashCostsTheOwned(cfg: Config, acts: seq<Action>, w: nat, id: nat)
    requires Sound(cfg) && Holding(cfg) && Live(cfg) && RunFrom(cfg, INIT, acts).Some? && Unstranded(cfg, INIT, acts)
    requires id in RunFrom(cfg, INIT, acts).value.db.deliveries
    ensures var s := RunFrom(cfg, INIT, acts).value;
            var t := WorkerDoes(cfg, s, w, Crash);
            EverFinished(cfg, t, id) <==> EverFinished(cfg, s, id) && !Owns(Worker(s, w), id)
  {
    var s := RunFrom(cfg, INIT, acts).value;
    var t := WorkerDoes(cfg, s, w, Crash);
    InitInv(cfg);
    RunKeepsCarried(cfg, INIT, acts);
    ReachStep(cfg, s, ByWorker(w, Crash));
    FinishableExactly(cfg, s, id);
    FinishableExactly(cfg, t, id);
    if Owns(Worker(s, w), id) { OwnerCrashIsDeadly(cfg, s, w, id); } else { CrashSparesOthers(cfg, s, w, id); }
  }

  lemma OwnerCrashIsDeadly(cfg: Config, s: State, w: nat, id: nat)
    requires Sound(cfg) && Reachable(cfg, s) && Owns(Worker(s, w), id)
    ensures !Alive(cfg, WorkerDoes(cfg, s, w, Crash), id)
  {
    var t := WorkerDoes(cfg, s, w, Crash);
    CrashOrphans(cfg, s, w, id);
    assert forall v :: v in t.workers ==> !Owns(Worker(t, v), id);
  }

  lemma CrashKeepsCarrier(cfg: Config, s: State, w: nat, id: nat)
    requires Carried(cfg, s, id) && id in s.db.deliveries && !Owns(Worker(s, w), id)
    ensures Carried(cfg, WorkerDoes(cfg, s, w, Crash), id)
  {
    var t := WorkerDoes(cfg, s, w, Crash);
    match s.db.deliveries[id].status
    case Queued =>
      if HasOpenRow(s, id) { OpenRowKept(s, t, id); }
      if HasSafeCopy(cfg, s, id) { CrashKeepsCopy(cfg, s, w, id); }
    case Retrying => CrashKeepsCopy(cfg, s, w, id);
    case Processing =>
      var v :| v in s.workers && Owns(s.workers[v], id);
      assert Owns(t.workers[v], id);
    case _ =>
  }

  lemma CrashKeepsCopy(cfg: Config, s: State, w: nat, id: nat)
    requires HasSafeCopy(cfg, s, id)
    ensures HasSafeCopy(cfg, WorkerDoes(cfg, s, w, Crash), id)
  {
    var c :| SafeCopy(cfg, s, id, c);
    assert SafeCopy(cfg, WorkerDoes(cfg, s, w, Crash), id, c);
  }

  lemma CrashSparesOthers(cfg: Config, s: State, w: nat, id: nat)
    requires Holding(cfg) && Inv(cfg, s) && CarriedInv(cfg, s) && id in s.db.deliveries && !Owns(Worker(s, w), id)
    ensures Alive(cfg, WorkerDoes(cfg, s, w, Crash), id) <==> Alive(cfg, s, id)
  {
    var a := ByWorker(w, Crash);
    var t := WorkerDoes(cfg, s, w, Crash);
    if HasStatus(s.db, id, Pending) {
      if id in s.db.scheduled { assert Blockers(t, id) == Blockers(s, id); }
    } else {
      assert Carried(cfg, s, id);
      CarriedIsAlive(cfg, s, id);
      CrashKeepsCarrier(cfg, s, w, id);
      StepKeepsInv(cfg, s, a);
      StepKeepsCopies(cfg, s, a);
      CarriedIsAlive(cfg, t, id);
    }
  }

  /** After any run without a stranding or jamming failure, every delivery can still be finished. */
  lemma EveryDeliveryCanFinish(cfg: Config, acts: seq<Action>, id: nat)
    requires Holding(cfg) && Live(cfg)
    requires RunFrom(cfg, INIT, acts).Some? && Smooth(cfg, INIT, acts)
    requires id in RunFrom(cfg, INIT, acts).value.db.deliveries
    ensures Finishable(cfg, RunFrom(cfg, INIT, acts).value, id)
  {
    var s := RunFrom(cfg, INIT, acts).value;
    SmoothRunsAreJamFree(cfg, acts);
    FinishableUnlessJammed(cfg, acts, id);
    if HasStatus(s.db, id, Pending) { assert Blockers(s, id) == {}; }
  }

  lemma {:induction false} SmoothRunsAreJamFree(cfg: Config, acts: seq<Action>)
    requires Holding(cfg) && Live(cfg) && RunFrom(cfg, INIT, acts).Some? && Smooth(cfg, INIT, acts)
    ensures Unstranded(cfg, INIT, acts) && JamFree(RunFrom(cfg, INIT, acts).value)
  {
    if acts != [] {
      var before := acts[..|acts| - 1];
      SmoothRunsAreJamFree(cfg, before);
      RunsAreSane(cfg, before);
      StepKeepsJamFree(cfg, RunFrom(cfg, INIT, before).value, acts[|acts| - 1]);
    }
  }
}
