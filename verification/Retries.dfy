/**
  Retry termination. With one worker that does not crash and whose writes succeed, every
  round of a delivery, from its first dispatch or its last replay on, ends in success or
  in the dead-letter status within the retry limit, and its attempts are numbered without
  gaps. Everything else may happen as it likes, and the provider may answer as it likes.
*/
module Retries {
  import opened Notification
  import opened Protocol
  import opened Frames
  import opened Safety
  import opened Guarantees

  /** The only worker is worker 0, which does not crash; its statements succeed. */
  predicate Solo(a: Action) {
    a.ByWorker? ==>
      && a.w == 0 && a.wop != Crash
      && (a.wop.Claim? || a.wop.Record? || a.wop.Save? ==> a.wop.write == Applied)
  }

  predicate AllSolo(acts: seq<Action>) {
    forall i :: 0 <= i < |acts| ==> Solo(acts[i])
  }

  /**
    What has happened to a delivery: the claims and the numbers of the recorded attempts since its last
    replay, the replays, and all recorded attempts.
  */
  datatype Round = Round(claims: nat, numbers: seq<int>, replays: nat, recorded: nat)

  const FRESH := Round(0, [], 0, 0)

  predicate Claims(s: State, a: Action, id: nat) {
    && a.ByWorker? && a.wop == Claim(Applied)
    && Worker(s, a.w).Claiming? && Worker(s, a.w).d.id == id && HasStatus(s.db, id, Worker(s, a.w).prev)
  }

  predicate Records(s: State, a: Action, id: nat) {
    a.ByWorker? && a.wop == Record(Applied) && AtRecord(Worker(s, a.w)) && Worker(s, a.w).d.id == id
  }

  predicate Requeues(s: State, a: Action, id: nat) {
    && a.ByReplay? && a.rop.Requeue? && !a.rop.write.Lost?
    && Replay(s, a.r).Saving? && Replay(s, a.r).d.id == id
  }

  function Next(s: State, a: Action, id: nat, r: Round): Round {
    if Claims(s, a, id) then r.(claims := r.claims + 1)
    else if Records(s, a, id) then
      r.(numbers := r.numbers + [Worker(s, a.w).attempt.value.number], recorded := r.recorded + 1)
    else if Requeues(s, a, id) then Round(0, [], r.replays + 1, r.recorded)
    else r
  }

  function RoundOf(cfg: Config, acts: seq<Action>, id: nat): Round
    requires RunFrom(cfg, INIT, acts).Some?
  {
    if acts == [] then FRESH
    else
      var before := acts[..|acts| - 1];
      Next(RunFrom(cfg, INIT, before).value, acts[|acts| - 1], id, RoundOf(cfg, before, id))
  }

  predicate InOrder(numbers: seq<int>) {
    forall i :: 0 <= i < |numbers| ==> numbers[i] == i + 1
  }

  /** The round of a delivery that no worker has claimed. */
  predicate AtRest(d: Row, r: Round) {
    match d.status
    case Pending | Queued => r.claims == 0 && r.numbers == [] && d.retryCount == 0
    case Retrying => 0 < r.claims == d.retryCount == |r.numbers|
    case Succeeded | Dlq => r.claims > 0
    case _ => false
  }

  predicate Numbered(pc: WorkerPc, n: int)
    requires pc.Owning? || pc.Closing?
  {
    pc.attempt.Some? ==> pc.attempt.value.number == n
  }

  /** The round of a delivery that the worker has claimed. */
  predicate InHand(pc: WorkerPc, r: Round)
    requires pc.Owning?
  {
    && r.claims == pc.base.retryCount + 1 && Numbered(pc, r.claims)
    && |r.numbers| == if pc.stage == SavingDlq && pc.attempt.Some? then r.claims else r.claims - 1
  }

  predicate Unrecorded(pc: WorkerPc, id: nat) {
    pc.Closing? && pc.d.id == id && pc.rest in {RecordingSuccess, RecordingRetry}
  }

  /** The round of a delivery that has been stored while its last attempt has not. */
  predicate Stored(d: Row, pc: WorkerPc, r: Round)
    requires pc.Closing?
  {
    && r.claims == |r.numbers| + 1 && Numbered(pc, r.claims)
    && if pc.rest == RecordingRetry then d.status == Retrying && d.retryCount == r.claims else d.status == Succeeded
  }

  predicate Bounded(cfg: Config, r: Round) {
    && InOrder(r.numbers) && |r.numbers| <= r.claims <= RetryLimit(cfg)
    && r.recorded <= RetryLimit(cfg) * r.replays + |r.numbers|
  }

  predicate Tracks(cfg: Config, s: State, id: nat, r: Round) {
    && Bounded(cfg, r)
    && if id !in s.db.deliveries then r == FRESH && !Unrecorded(Worker(s, 0), id)
       else
         var d, pc := s.db.deliveries[id], Worker(s, 0);
         if Owns(pc, id) then InHand(pc, r)
         else if Unrecorded(pc, id) then Stored(d, pc, r)
         else AtRest(d, r) && (pc.Claiming? && pc.d.id == id ==> d.status == pc.prev && d.retryCount == pc.d.retryCount)
  }

  // ----- Steps of the worker

  lemma FindTracks(cfg: Config, s: State, ok: bool, id: nat, r: Round)
    requires RowIds(s.db) && Tracks(cfg, s, id, r) && WorkerCan(cfg, s, 0, Find(ok))
    ensures Tracks(cfg, WorkerDoes(cfg, s, 0, Find(ok)), id, r)
  {
  }

  lemma ClaimTracks(cfg: Config, s: State, id: nat, r: Round)
    requires Tracks(cfg, s, id, r) && WorkerOk(cfg, s, Worker(s, 0)) && Worker(s, 0).Claiming?
    ensures var a := ByWorker(0, Claim(Applied));
            Tracks(cfg, AfterClaim(s, 0, Applied), id, Next(s, a, id, r))
  {
  }

  lemma GateTracks(cfg: Config, s: State, gate: GateResult, id: nat, r: Round)
    requires Tracks(cfg, s, id, r) && WorkerOk(cfg, s, Worker(s, 0)) && WorkerCan(cfg, s, 0, Gate(gate))
    ensures Tracks(cfg, WorkerDoes(cfg, s, 0, Gate(gate)), id, r)
  {
  }

  lemma SendTracks(cfg: Config, s: State, result: SendResult, id: nat, r: Round)
    requires Tracks(cfg, s, id, r) && WorkerOk(cfg, s, Worker(s, 0)) && WorkerCan(cfg, s, 0, Send(result))
    ensures Tracks(cfg, AfterSend(cfg, s, 0, result), id, r)
  {
  }

  lemma RecordTracks(cfg: Config, s: State, id: nat, r: Round)
    requires Tracks(cfg, s, id, r) && WorkerOk(cfg, s, Worker(s, 0)) && WorkerCan(cfg, s, 0, Record(Applied))
    ensures var a := ByWorker(0, Record(Applied));
            Tracks(cfg, AfterRecord(s, 0, Applied), id, Next(s, a, id, r))
  {
  }

  lemma SaveTracks(cfg: Config, s: State, id: nat, r: Round)
    requires Sound(cfg) && Tracks(cfg, s, id, r) && WorkerOk(cfg, s, Worker(s, 0)) && WorkerCan(cfg, s, 0, Save(Applied))
    ensures Tracks(cfg, AfterSave(s, 0, Applied), id, r)
  {
  }

  lemma WorkerTracks(cfg: Config, s: State, op: WorkerOp, id: nat, r: Round)
    requires Sound(cfg) && Tracks(cfg, s, id, r) && WorkerOk(cfg, s, Worker(s, 0))
    requires RowIds(s.db) && WorkerCan(cfg, s, 0, op) && Solo(ByWorker(0, op))
    ensures Tracks(cfg, WorkerDoes(cfg, s, 0, op), id, Next(s, ByWorker(0, op), id, r))
  {
    match op
    case Find(ok) => FindTracks(cfg, s, ok, id, r);
    case Claim(_) => ClaimTracks(cfg, s, id, r);
    case Gate(gate) => GateTracks(cfg, s, gate, id, r);
    case Send(result) => SendTracks(cfg, s, result, id, r);
    case Record(_) => RecordTracks(cfg, s, id, r);
    case Save(_) => SaveTracks(cfg, s, id, r);
    case _ =>
  }

  // ----- Steps of the others

  lemma ClientTracks(cfg: Config, s: State, c: nat, op: ClientOp, id: nat, r: Round)
    requires Tracks(cfg, s, id, r) && ClientOk(cfg, s, Client(s, c)) && ClientCan(s, c, op)
    requires WorkerOk(cfg, s, Worker(s, 0))
    ensures Tracks(cfg, ClientDoes(cfg, s, c, op), id, r)
  {
  }

  lemma SchedulerTracks(cfg: Config, s: State, k: nat, op: SchedulerOp, id: nat, r: Round)
    requires Sound(cfg) && Tracks(cfg, s, id, r) && SchedulerOk(cfg, s, Scheduler(s, k)) && SchedulerCan(cfg, s, k, op)
    requires WorkerOk(cfg, s, Worker(s, 0))
    ensures Tracks(cfg, SchedulerDoes(cfg, s, k, op), id, r)
  {
  }

  lemma ReplayTracks(cfg: Config, s: State, q: nat, op: ReplayOp, id: nat, r: Round)
    requires Sound(cfg) && Tracks(cfg, s, id, r) && ReplayOk(cfg, s, Replay(s, q)) && ReplayCan(cfg, s, q, op)
    requires WorkerOk(cfg, s, Worker(s, 0))
    ensures Tracks(cfg, ReplayDoes(cfg, s, q, op), id, Next(s, ByReplay(q, op), id, r))
  {
  }

  lemma PublisherTracks(cfg: Config, s: State, p: nat, op: PublisherOp, id: nat, r: Round)
    requires Tracks(cfg, s, id, r) && PublisherCan(s, p, op)
    ensures Tracks(cfg, PublisherDoes(cfg, s, p, op), id, r)
  {
    assert PublisherDoes(cfg, s, p, op).workers == s.workers && PublisherDoes(cfg, s, p, op).db.deliveries == s.db.deliveries;
  }

  lemma OneStepTracks(cfg: Config, s: State, a: Action, id: nat, r: Round)
    requires Sound(cfg) && Enabled(cfg, s, a) && Solo(a) && Tracks(cfg, s, id, r)
    requires RowIds(s.db) && WorkerOk(cfg, s, Worker(s, 0))
    requires a.ByClient? ==> ClientOk(cfg, s, Client(s, a.c))
    requires a.ByScheduler? ==> SchedulerOk(cfg, s, Scheduler(s, a.k))
    requires a.ByReplay? ==> ReplayOk(cfg, s, Replay(s, a.r))
    ensures Tracks(cfg, Apply(cfg, s, a), id, Next(s, a, id, r))
  {
    match a
    case ByClient(c, op) => ClientTracks(cfg, s, c, op, id, r);
    case ByPublisher(p, op) => PublisherTracks(cfg, s, p, op, id, r);
    case ByScheduler(k, op) => SchedulerTracks(cfg, s, k, op, id, r);
    case ByWorker(w, op) => WorkerTracks(cfg, s, op, id, r);
    case ByReplay(q, op) => ReplayTracks(cfg, s, q, op, id, r);
    case _ =>
  }

  lemma StepTracks(cfg: Config, s: State, a: Action, id: nat, r: Round)
    requires Sound(cfg) && Reachable(cfg, s) && Enabled(cfg, s, a) && Solo(a) && Tracks(cfg, s, id, r)
    ensures Tracks(cfg, Apply(cfg, s, a), id, Next(s, a, id, r))
  {
    ReachableInv(cfg, s);
    ProcessesAt(cfg, s);
    forall x | x in s.db.deliveries ensures s.db.deliveries[x].id == x { assert RowOk(cfg, s, x); }
    OneStepTracks(cfg, s, a, id, r);
  }

  lemma {:induction false} RunTracks(cfg: Config, acts: seq<Action>, id: nat)
    requires Sound(cfg) && RunFrom(cfg, INIT, acts).Some? && AllSolo(acts)
    ensures Tracks(cfg, RunFrom(cfg, INIT, acts).value, id, RoundOf(cfg, acts, id))
  {
    if acts != [] {
      var before := acts[..|acts| - 1];
      RunTracks(cfg, before, id);
      StepTracks(cfg, RunFrom(cfg, INIT, before).value, acts[|acts| - 1], id, RoundOf(cfg, before, id));
    }
  }

  // ----- What follows

  function Count(attempts: seq<AttemptRow>, id: nat): nat {
    if attempts == [] then 0
    else Count(attempts[..|attempts| - 1], id) + if attempts[|attempts| - 1].delivery == id then 1 else 0
  }

  lemma CountStep(cfg: Config, s: State, a: Action, id: nat, r: Round)
    requires Enabled(cfg, s, a) && Solo(a) && r.recorded == Count(s.db.attempts, id)
    ensures Next(s, a, id, r).recorded == Count(Apply(cfg, s, a).db.attempts, id)
  {
    if a.ByWorker? {
      WorkerCounts(cfg, s, a.wop, id, r);
    } else {
      OthersFrame(cfg, s, a);
    }
  }

  lemma WorkerCounts(cfg: Config, s: State, op: WorkerOp, id: nat, r: Round)
    requires WorkerCan(cfg, s, 0, op) && Solo(ByWorker(0, op)) && r.recorded == Count(s.db.attempts, id)
    ensures Next(s, ByWorker(0, op), id, r).recorded == Count(WorkerDoes(cfg, s, 0, op).db.attempts, id)
  {
    if op.Record? {
      var pc := Worker(s, 0);
      var row := AttemptRow(pc.d.id, pc.attempt.value);
      assert (s.db.attempts + [row])[..|s.db.attempts|] == s.db.attempts;
    } else {
      assert WorkerDoes(cfg, s, 0, op).db.attempts == s.db.attempts;
    }
  }

  lemma {:induction false} RecordedIsStored(cfg: Config, acts: seq<Action>, id: nat)
    requires RunFrom(cfg, INIT, acts).Some? && AllSolo(acts)
    ensures RoundOf(cfg, acts, id).recorded == Count(RunFrom(cfg, INIT, acts).value.db.attempts, id)
  {
    if acts != [] {
      var before := acts[..|acts| - 1];
      RecordedIsStored(cfg, before, id);
      CountStep(cfg, RunFrom(cfg, INIT, before).value, acts[|acts| - 1], id, RoundOf(cfg, before, id));
    }
  }

  /**
    In every round a delivery is dispatched at most max(1, maxAttempts) times; when it has been, and the worker
    has let go of it, it has succeeded or is dead. Its attempts are numbered 1, 2, .. without gaps.
  */
  lemma RetryTermination(cfg: Config, acts: seq<Action>, id: nat)
    requires Sound(cfg) && RunFrom(cfg, INIT, acts).Some? && AllSolo(acts)
    ensures var s, r := RunFrom(cfg, INIT, acts).value, RoundOf(cfg, acts, id);
            && r.claims <= RetryLimit(cfg)
            && (forall i :: 0 <= i < |r.numbers| ==> r.numbers[i] == i + 1)
            && (r.claims == RetryLimit(cfg) && !Owns(Worker(s, 0), id) ==>
                  HasStatus(s.db, id, Succeeded) || HasStatus(s.db, id, Dlq))
  {
    var s, r := RunFrom(cfg, INIT, acts).value, RoundOf(cfg, acts, id);
    RunTracks(cfg, acts, id);
    RetryCountBound(cfg, s);
  }

  function TotalLimit(cfg: Config, replays: nat): int {
    RetryLimit(cfg) * (1 + replays)
  }

  /** All attempts together, over all rounds, number at most max(1, maxAttempts) * (1 + replays). */
  lemma TotalAttemptBound(cfg: Config, acts: seq<Action>, id: nat)
    requires Sound(cfg) && RunFrom(cfg, INIT, acts).Some? && AllSolo(acts)
    ensures Count(RunFrom(cfg, INIT, acts).value.db.attempts, id) <= TotalLimit(cfg, RoundOf(cfg, acts, id).replays)
  {
    RunTracks(cfg, acts, id);
    RecordedIsStored(cfg, acts, id);
    BoundedTotal(cfg, RoundOf(cfg, acts, id));
  }

  lemma BoundedTotal(cfg: Config, r: Round)
    requires Bounded(cfg, r)
    ensures r.recorded <= TotalLimit(cfg, r.replays)
  {
  }
}
