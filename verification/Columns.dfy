/**
  What the columns of the rows say in every run: who changed which of them, what the error
  of a delivery is, and what its attempts tell.
*/
module Columns {
  import opened Wrappers
  import opened Notification
  import opened Protocol
  import opened Frames
  import opened Safety
  import opened Guarantees

  // ----- What a worker has in hand

  /** A failed attempt, from the claim to the time at which the delivery was given its error. */
  predicate FailedAttempt(attempt: Option<Attempt>, number: int, claimed: int, d: Row) {
    attempt == Some(Attempt(number, claimed, Some(d.updatedAt), d.lastError, false))
  }

  /** The attempt of a success is as it was before the provider answered. */
  predicate BareAttempt(attempt: Option<Attempt>, number: int, claimed: int) {
    attempt == Some(Attempt(number, claimed, None, "", false))
  }

  /** The delivery and the attempt that an owner has in hand, given the row as it was claimed. */
  predicate OwnerTells(pc: WorkerPc)
    requires pc.Owning?
  {
    var Owning(_, d, base, attempt, stage) := pc;
    var number := base.retryCount + 1;
    match stage
    case Gating => d == base
    case Sending => d == base && BareAttempt(attempt, number, base.updatedAt)
    case SavingSuccess =>
      d == base.(status := Succeeded, lastError := "", updatedAt := d.updatedAt) && BareAttempt(attempt, number, base.updatedAt)
    case SavingRetry =>
      && d == base.(status := Retrying, retryCount := number, lastError := d.lastError, updatedAt := d.updatedAt)
      && FailedAttempt(attempt, number, base.updatedAt, d)
    case RecordingDlq | SavingDlq =>
      && d == base.(status := Dlq, lastError := d.lastError, updatedAt := d.updatedAt)
      && if attempt.Some? then FailedAttempt(attempt, number, base.updatedAt, d)
         else stage == SavingDlq && d.updatedAt == base.updatedAt && d.lastError == "no provider for channel"
  }

  predicate PcTells(pc: WorkerPc, now: int) {
    match pc
    case Claiming(_, d, _) => d.updatedAt <= now
    case Owning(_, d, base, _, _) => OwnerTells(pc) && base.updatedAt <= d.updatedAt <= now
    case Closing(_, d, attempt, rest) =>
      && (rest == RecordingSuccess ==> attempt.Some? && AttemptTells(attempt.value, now))
      && (rest == RecordingRetry ==> attempt.Some? && AttemptTells(attempt.value, now))
    case _ => true
  }

  /** An attempt has finished, after it started, or it has no error. */
  predicate AttemptTells(attempt: Attempt, now: int) {
    && !attempt.success && attempt.startedAt <= now
    && match attempt.finishedAt
       case None => attempt.error == ""
       case Some(time) => attempt.startedAt <= time <= now
  }

  ghost predicate WorkersTell(s: State) {
    forall w :: w in s.workers ==> PcTells(s.workers[w], s.now)
  }

  ghost predicate TablesTell(s: State) {
    && (forall i :: 0 <= i < |s.db.attempts| ==> AttemptTells(s.db.attempts[i].attempt, s.now))
    && (forall id :: HasStatus(s.db, id, Succeeded) ==> s.db.deliveries[id].lastError == "")
  }

  lemma WorkerLandsTelling(cfg: Config, s: State, w: nat, op: WorkerOp)
    requires PcTells(Worker(s, w), s.now) && WorkerCan(cfg, s, w, op)
    ensures PcTells(Worker(WorkerDoes(cfg, s, w, op), w), s.now)
  {
    match op
    case Gate(gate) => GateTells(cfg, s, w, gate);
    case Send(result) => SendTells(cfg, s, w, result);
    case _ =>
  }

  lemma GateTells(cfg: Config, s: State, w: nat, gate: GateResult)
    requires PcTells(Worker(s, w), s.now) && WorkerCan(cfg, s, w, Gate(gate))
    ensures PcTells(AfterGate(cfg, s, w, gate), s.now)
  {
  }

  lemma SendTells(cfg: Config, s: State, w: nat, result: SendResult)
    requires PcTells(Worker(s, w), s.now) && WorkerCan(cfg, s, w, Send(result))
    ensures PcTells(Worker(AfterSend(cfg, s, w, result), w), s.now)
  {
  }

  lemma WorkerStoresTelling(cfg: Config, s: State, w: nat, op: WorkerOp)
    requires TablesTell(s) && PcTells(Worker(s, w), s.now) && WorkerOk(cfg, s, Worker(s, w)) && WorkerCan(cfg, s, w, op)
    ensures TablesTell(WorkerDoes(cfg, s, w, op))
  {
    match op
    case Record(write) => RecordTells(s, w, write);
    case Save(write) => SaveTells(s, w, write);
    case Claim(write) => ClaimTells(cfg, s, w, write);
    case _ => WorkerFrame(cfg, s, w, op);
  }

  lemma RecordTells(s: State, w: nat, write: Write)
    requires TablesTell(s) && PcTells(Worker(s, w), s.now) && AtRecord(Worker(s, w))
    ensures TablesTell(AfterRecord(s, w, write))
  {
    assert AttemptTells(Worker(s, w).attempt.value, s.now);
  }

  lemma SaveTells(s: State, w: nat, write: Write)
    requires TablesTell(s) && PcTells(Worker(s, w), s.now) && AtSave(Worker(s, w))
    ensures TablesTell(AfterSave(s, w, write))
  {
  }

  lemma ClaimTells(cfg: Config, s: State, w: nat, write: Write)
    requires TablesTell(s) && WorkerOk(cfg, s, Worker(s, w)) && Worker(s, w).Claiming?
    ensures TablesTell(AfterClaim(s, w, write))
  {
  }

  lemma OthersKeepTelling(cfg: Config, s: State, a: Action)
    requires Inv(cfg, s) && WorkersTell(s) && TablesTell(s) && Enabled(cfg, s, a) && !a.ByWorker?
    ensures WorkersTell(Apply(cfg, s, a)) && TablesTell(Apply(cfg, s, a))
  {
    var t := Apply(cfg, s, a);
    OthersFrame(cfg, s, a);
    TimeGoesOn(cfg, s, a);
    forall w | w in t.workers ensures PcTells(t.workers[w], t.now) { assert PcTells(s.workers[w], s.now); }
    forall i | 0 <= i < |t.db.attempts| ensures AttemptTells(t.db.attempts[i].attempt, t.now) {
      assert AttemptTells(s.db.attempts[i].attempt, s.now);
    }
    forall id | HasStatus(t.db, id, Succeeded) ensures t.db.deliveries[id].lastError == "" {
      NobodyElseSucceeds(cfg, s, a, id);
    }
  }

  lemma TimeGoesOn(cfg: Config, s: State, a: Action)
    requires Enabled(cfg, s, a) && !a.ByWorker?
    ensures s.now <= Apply(cfg, s, a).now
  {
    match a
    case ByClient(c, op) => ClientFrame(cfg, s, c, op);
    case ByPublisher(p, op) => PublisherFrame(cfg, s, p, op);
    case ByScheduler(k, op) => SchedulerFrame(cfg, s, k, op);
    case ByReplay(r, op) => ReplayFrame(cfg, s, r, op);
    case _ =>
  }

  lemma NobodyElseSucceeds(cfg: Config, s: State, a: Action, id: nat)
    requires Inv(cfg, s) && Enabled(cfg, s, a) && !a.ByWorker? && HasStatus(Apply(cfg, s, a).db, id, Succeeded)
    ensures HasStatus(s.db, id, Succeeded) && Apply(cfg, s, a).db.deliveries[id] == s.db.deliveries[id]
  {
    ProcessesAt(cfg, s);
    if id in s.db.deliveries {
      StatusStep(cfg, s, a, id);
    } else {
      match a
      case ByClient(c, op) => ClientFrame(cfg, s, c, op);
      case ByPublisher(p, op) => PublisherFrame(cfg, s, p, op);
      case ByScheduler(k, op) => SchedulerFrame(cfg, s, k, op);
      case ByReplay(r, op) => ReplayFrame(cfg, s, r, op);
      case _ =>
    }
  }

  lemma StepKeepsTelling(cfg: Config, s: State, a: Action)
    requires Inv(cfg, s) && WorkersTell(s) && TablesTell(s) && Enabled(cfg, s, a)
    ensures WorkersTell(Apply(cfg, s, a)) && TablesTell(Apply(cfg, s, a))
  {
    match a
    case ByWorker(w, op) =>
      WorkerAt(cfg, s, w);
      assert PcTells(Worker(s, w), s.now);
      WorkerFrame(cfg, s, w, op);
      WorkerLandsTelling(cfg, s, w, op);
      WorkerStoresTelling(cfg, s, w, op);
    case _ => OthersKeepTelling(cfg, s, a);
  }

  lemma {:induction false} RunTells(cfg: Config, acts: seq<Action>)
    requires RunFrom(cfg, INIT, acts).Some?
    ensures WorkersTell(RunFrom(cfg, INIT, acts).value) && TablesTell(RunFrom(cfg, INIT, acts).value)
  {
    if acts != [] {
      var before := acts[..|acts| - 1];
      RunTells(cfg, before);
      ReachableInv(cfg, RunFrom(cfg, INIT, before).value);
      StepKeepsTelling(cfg, RunFrom(cfg, INIT, before).value, acts[|acts| - 1]);
    }
  }

  /** Every stored attempt has finished after it started, or has no error because it is that of a success. */
  lemma AttemptsTell(cfg: Config, s: State, i: nat)
    requires Reachable(cfg, s) && i < |s.db.attempts|
    ensures var attempt := s.db.attempts[i].attempt;
            && attempt.startedAt <= s.now
            && (attempt.finishedAt.None? ==> attempt.error == "")
            && (attempt.finishedAt.Some? ==> attempt.startedAt <= attempt.finishedAt.value <= s.now)
  {
    var acts :| RunFrom(cfg, INIT, acts) == Some(s);
    RunTells(cfg, acts);
    assert AttemptTells(s.db.attempts[i].attempt, s.now);
  }

  /** A delivery that has succeeded has no error, in any deployment. */
  lemma SuccessHasNoError(cfg: Config, s: State, id: nat)
    requires Reachable(cfg, s) && HasStatus(s.db, id, Succeeded)
    ensures s.db.deliveries[id].lastError == ""
  {
    var acts :| RunFrom(cfg, INIT, acts) == Some(s);
    RunTells(cfg, acts);
  }

  // ----- Which columns a step changes

  /** A replay will write back what it has read, queued and with no retries counted. */
  ghost predicate ReplaysKeep(s: State) {
    forall r :: r in s.replays && s.replays[r].Saving? ==>
      var d := s.replays[r].d;
      && d.id in s.db.deliveries
      && d == s.db.deliveries[d.id].(status := Queued, retryCount := 0, updatedAt := d.updatedAt)
  }

  lemma ReplayKeepsKept(cfg: Config, s: State, r: nat, op: ReplayOp)
    requires Sound(cfg) && RowsInv(cfg, s) && ReplaysInv(cfg, s) && ReplaysKeep(s) && ReplayCan(cfg, s, r, op)
    ensures ReplaysKeep(ReplayDoes(cfg, s, r, op))
  {
    var t := ReplayDoes(cfg, s, r, op);
    ReplayFrame(cfg, s, r, op);
    if op.Open? { assert RowOk(cfg, s, op.id); }
    forall q | q in t.replays && t.replays[q].Saving?
      ensures var d := t.replays[q].d;
              && d.id in t.db.deliveries
              && d == t.db.deliveries[d.id].(status := Queued, retryCount := 0, updatedAt := d.updatedAt)
    {
      if q != r { assert Replay(t, q) == Replay(s, q) && q in s.replays; }
    }
  }

  lemma StepKeepsKept(cfg: Config, s: State, a: Action)
    requires Sound(cfg) && Inv(cfg, s) && ReplaysKeep(s) && Enabled(cfg, s, a)
    ensures ReplaysKeep(Apply(cfg, s, a))
  {
    if a.ByReplay? {
      ReplayKeepsKept(cfg, s, a.r, a.rop);
    } else {
      var t := Apply(cfg, s, a);
      OthersLeaveReplays(cfg, s, a);
      forall r | r in t.replays && t.replays[r].Saving?
        ensures var id := t.replays[r].d.id; id in t.db.deliveries && t.db.deliveries[id] == s.db.deliveries[id]
      {
        assert ReplayOk(cfg, s, s.replays[r]);
        StatusStep(cfg, s, a, s.replays[r].d.id);
      }
    }
  }

  lemma OthersLeaveReplays(cfg: Config, s: State, a: Action)
    requires Enabled(cfg, s, a) && !a.ByReplay?
    ensures Apply(cfg, s, a).replays == s.replays
  {
    match a
    case ByClient(c, op) => ClientFrame(cfg, s, c, op);
    case ByPublisher(p, op) => PublisherFrame(cfg, s, p, op);
    case ByScheduler(k, op) => SchedulerFrame(cfg, s, k, op);
    case ByWorker(w, op) => WorkerFrame(cfg, s, w, op);
    case _ =>
  }

  lemma {:induction false} RunKeepsKept(cfg: Config, acts: seq<Action>)
    requires Sound(cfg) && RunFrom(cfg, INIT, acts).Some?
    ensures ReplaysKeep(RunFrom(cfg, INIT, acts).value)
  {
    if acts != [] {
      var before := acts[..|acts| - 1];
      RunKeepsKept(cfg, before);
      ReachableInv(cfg, RunFrom(cfg, INIT, before).value);
      StepKeepsKept(cfg, RunFrom(cfg, INIT, before).value, acts[|acts| - 1]);
    }
  }

  /** The columns in which `y` may differ from `x` after this action. All others are the same. */
  predicate ChangedBy(a: Action, x: Row, y: Row) {
    var stamped := x.(status := y.status, updatedAt := y.updatedAt);
    if a.ByScheduler? then a.sop.Promote? && x.status == Pending && y == stamped && y.status == Queued
    else if a.ByReplay? then a.rop.Requeue? && x.status == Dlq && y == stamped.(retryCount := 0) && y.status == Queued
    else if a.ByWorker? && a.wop.Claim? then
      && (x.status == Queued || x.status == Retrying) && y.status == Processing
      && y == stamped.(retryCount := y.retryCount, lastError := y.lastError)
    else
      && a.ByWorker? && a.wop.Save? && x.status == Processing
      && match y.status
         case Succeeded => y == stamped.(lastError := "")
         case Retrying => y == stamped.(retryCount := x.retryCount + 1, lastError := y.lastError)
         case Dlq => y == stamped.(lastError := y.lastError)
         case _ => false
  }

  lemma WorkerChanges(cfg: Config, s: State, w: nat, op: WorkerOp, id: nat)
    requires Sound(cfg) && WorkerOk(cfg, s, Worker(s, w)) && PcTells(Worker(s, w), s.now) && WorkerCan(cfg, s, w, op)
    requires id in s.db.deliveries && WorkerDoes(cfg, s, w, op).db.deliveries[id] != s.db.deliveries[id]
    ensures ChangedBy(ByWorker(w, op), s.db.deliveries[id], WorkerDoes(cfg, s, w, op).db.deliveries[id])
  {
  }

  lemma SchedulerChanges(cfg: Config, s: State, k: nat, op: SchedulerOp, id: nat)
    requires Sound(cfg) && SchedulerOk(cfg, s, Scheduler(s, k)) && SchedulerCan(cfg, s, k, op)
    requires id in s.db.deliveries && SchedulerDoes(cfg, s, k, op).db.deliveries[id] != s.db.deliveries[id]
    ensures ChangedBy(ByScheduler(k, op), s.db.deliveries[id], SchedulerDoes(cfg, s, k, op).db.deliveries[id])
  {
  }

  lemma ReplayChanges(cfg: Config, s: State, r: nat, op: ReplayOp, id: nat)
    requires Sound(cfg) && ReplayOk(cfg, s, Replay(s, r)) && ReplaysKeep(s) && ReplayCan(cfg, s, r, op)
    requires id in s.db.deliveries && ReplayDoes(cfg, s, r, op).db.deliveries[id] != s.db.deliveries[id]
    ensures ChangedBy(ByReplay(r, op), s.db.deliveries[id], ReplayDoes(cfg, s, r, op).db.deliveries[id])
  {
  }

  /** In a sound deployment a stored row changes in these ways only, and in no other column. */
  lemma RowsChange(cfg: Config, s: State, a: Action, id: nat)
    requires Sound(cfg) && Reachable(cfg, s) && Enabled(cfg, s, a) && id in s.db.deliveries
    ensures id in Apply(cfg, s, a).db.deliveries
    ensures var x, y := s.db.deliveries[id], Apply(cfg, s, a).db.deliveries[id];
            y == x || ChangedBy(a, x, y)
  {
    var acts :| RunFrom(cfg, INIT, acts) == Some(s);
    RunTells(cfg, acts);
    RunKeepsKept(cfg, acts);
    ReachableInv(cfg, s);
    ProcessesAt(cfg, s);
    StatusStep(cfg, s, a, id);
    if Apply(cfg, s, a).db.deliveries[id] != s.db.deliveries[id] {
      match a
      case ByScheduler(k, op) => SchedulerChanges(cfg, s, k, op, id);
      case ByWorker(w, op) =>
        assert PcTells(Worker(s, w), s.now);
        WorkerChanges(cfg, s, w, op, id);
      case ByReplay(r, op) => ReplayChanges(cfg, s, r, op, id);
      case _ =>
    }
  }
}
