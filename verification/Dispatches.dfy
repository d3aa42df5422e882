/**
  What handling one message does when nothing else happens and no call of the worker
  fails. `Services.DispatchService.Dispatch` is proved to compute `DispatchOnce`; here is
  what that means for the delivery. Where calls may fail, `Makes` and `Tried` say which
  calls a service has made.
*/
module Dispatches {
  import opened Wrappers
  import opened Notification
  import opened Protocol
  import CB = CircuitBreaker

  // ----- Calls in order

  /** The call is the one planned, and has succeeded or not. What becomes of a dead-letter announcement does not matter. */
  predicate Makes(a: Action, plan: Action, ok: bool) {
    && a.ByWorker? && plan.ByWorker? && a.w == plan.w
    && match plan.wop
       case Record(_) => a.wop.Record? && (ok <==> a.wop.write.Applied?)
       case Save(_) => a.wop.Save? && (ok <==> a.wop.write.Applied?)
       case PublishDead(_) => a.wop.PublishDead? && ok
       case Audit(_) => a.wop == Audit(ok)
       case _ => false
  }

  /** The calls of the plan were made in order, up to the first that failed, or all of them if `ok`. */
  predicate Tried(acts: seq<Action>, plan: seq<Action>, ok: bool) {
    && |acts| <= |plan| && (ok ==> |acts| == |plan|) && (!ok ==> acts != [])
    && forall i :: 0 <= i < |acts| ==> Makes(acts[i], plan[i], ok || i < |acts| - 1)
  }

  function SuccessPlan(w: nat): seq<Action> {
    [ByWorker(w, Save(Applied)), ByWorker(w, Record(Applied)), ByWorker(w, Audit(true))]
  }

  function RetryPlan(w: nat): seq<Action> {
    [ByWorker(w, Save(Applied)), ByWorker(w, Record(Applied))]
  }

  function DlqPlan(w: nat, attempt: bool): seq<Action> {
    (if attempt then [ByWorker(w, Record(Applied))] else [])
    + [ByWorker(w, Save(Applied)), ByWorker(w, PublishDead(Applied)), ByWorker(w, Audit(true))]
  }

  /** How handling a message ends: without an error, with one, or in a panic that takes the process down. */
  datatype Ending = Nil | Error | Panic

  /** How far a dispatch comes before it knows how the attempt has ended. */
  datatype Course =
    | Unread(ok: bool)             // the delivery could not be read, or was not to be started
    | Unclaimed(write: Write)      // its claim failed, or came too late
    | Unprovided                   // there is no provider for its channel
    | Unallowed                    // the breaker of its channel is open
    | Called(result: SendResult)   // the provider was called

  function GateOf(course: Course): GateResult {
    match course
    case Called(_) => Cleared
    case Unallowed => Tripped
    case _ => NoProvider
  }

  function ResultOf(course: Course): SendResult {
    if course.Called? then course.result else Delivered
  }

  function GateActs(w: nat, course: Course): seq<Action> {
    match course
    case Unprovided => [ByWorker(w, Gate(NoProvider))]
    case Unallowed => [ByWorker(w, Gate(Tripped))]
    case Called(result) => [ByWorker(w, Gate(Cleared)), ByWorker(w, Send(result))]
    case _ => []
  }

  function ClaimActs(w: nat, course: Course): seq<Action> {
    match course
    case Unread(_) => []
    case Unclaimed(write) => [ByWorker(w, Claim(write))]
    case _ => [ByWorker(w, Claim(Applied))] + GateActs(w, course)
  }

  /** The actions of a dispatch up to there. */
  function Opening(w: nat, course: Course): seq<Action> {
    [ByWorker(w, Find(course.Unread? ==> course.ok))] + ClaimActs(w, course)
  }

  lemma ClaimFirst(own: seq<Action>, w: nat, course: Course, acts: seq<Action>)
    requires !course.Unread? && !course.Unclaimed?
    ensures own + [ByWorker(w, Claim(Applied))] + GateActs(w, course) + acts == own + ClaimActs(w, course) + acts
  {
    assert own + [ByWorker(w, Claim(Applied))] + GateActs(w, course) == own + ClaimActs(w, course);
  }

  lemma FindFirst(own: seq<Action>, w: nat, course: Course, acts: seq<Action>)
    requires course.Unread? ==> course.ok
    ensures own + [ByWorker(w, Find(true))] + ClaimActs(w, course) + acts == own + Opening(w, course) + acts
  {
    assert own + [ByWorker(w, Find(true))] + ClaimActs(w, course) == own + Opening(w, course);
  }

  predicate Concludes(acts: seq<Action>, plan: seq<Action>, end: Ending) {
    end != Panic && Tried(acts, plan, end == Nil)
  }

  /** After a failed attempt the delivery is dead-lettered, or stored for a retry, which is an error even if all goes well. */
  predicate FailureTried(acts: seq<Action>, w: nat, end: Ending) {
    || Concludes(acts, DlqPlan(w, true), end)
    || (end == Error && Tried(acts, RetryPlan(w), false))
    || (end != Nil && Tried(acts, RetryPlan(w), true))
  }

  /** The actions from there on, up to the reply. */
  predicate Closes(acts: seq<Action>, w: nat, course: Course, end: Ending) {
    match course
    case Unread(ok) => acts == [] && end != Panic && (!ok ==> end == Error)
    case Unclaimed(write) => acts == [] && end == if write.Applied? then Nil else Error
    case Unprovided => Concludes(acts, DlqPlan(w, false), end)
    case Unallowed => FailureTried(acts, w, end)
    case Called(result) => if result.Delivered? then Concludes(acts, SuccessPlan(w), end) else FailureTried(acts, w, end)
  }

  /** Provider and breaker decide on the course, and a call that is let through is reported, once and as it was. */
  predicate Warranted(course: Course, provided: bool, calls: seq<CB.Event>) {
    match course
    case Unread(_) => calls == []
    case Unclaimed(_) => calls == []
    case Unprovided => !provided && calls == []
    case Unallowed => provided && |calls| == 1 && calls[0].Denied?
    case Called(result) =>
      provided && |calls| == 2 && calls[0].Allowed? && if result.Delivered? then calls[1].Succeeded? else calls[1].Failed?
  }

  lemma TriedAfterRecord(a: Action, acts: seq<Action>, w: nat, ok: bool)
    requires Makes(a, ByWorker(w, Record(Applied)), true) && Tried(acts, DlqPlan(w, false), ok)
    ensures Tried([a] + acts, DlqPlan(w, true), ok)
  {
  }

  lemma TriedAfterSave(a: Action, acts: seq<Action>, w: nat, ok: bool)
    requires Makes(a, ByWorker(w, Save(Applied)), true) && Tried(acts, SuccessPlan(w)[1..], ok)
    ensures Tried([a] + acts, SuccessPlan(w), ok)
  {
  }

  // ----- Calls that all succeed

  /** The calls that a worker has left after it has decided on the outcome. */
  function Left(pc: WorkerPc): nat {
    match pc
    case Owning(_, _, _, _, stage) => if stage == RecordingDlq then 4 else 3
    case Closing(_, _, _, rest) => if rest == Auditing then 1 else 2
    case _ => 0
  }

  function NextCall(pc: WorkerPc): WorkerOp {
    if AtRecord(pc) then Record(Applied)
    else if AtSave(pc) then Save(Applied)
    else if pc.Closing? && pc.rest == PublishingDlq then PublishDead(Applied)
    else Audit(true)
  }

  /** The worker makes these calls. */
  function Concluded(cfg: Config, s: State, w: nat): State
    decreases Left(Worker(s, w))
  {
    var op := NextCall(Worker(s, w));
    if WorkerCan(cfg, s, w, op) then Concluded(cfg, WorkerDoes(cfg, s, w, op), w) else s
  }

  /** The provider is called. */
  function SentOnce(cfg: Config, s: State, w: nat, result: SendResult): State
    requires Worker(s, w).Owning? && Worker(s, w).stage == Gating
  {
    WorkerDoes(cfg, WorkerDoes(cfg, s, w, Gate(Cleared)), w, Send(result))
  }

  function AttemptOnce(cfg: Config, s: State, w: nat, gate: GateResult, result: SendResult): State
    requires Worker(s, w).Owning? && Worker(s, w).stage == Gating
  {
    Concluded(cfg, if gate == Cleared then SentOnce(cfg, s, w, result) else WorkerDoes(cfg, s, w, Gate(gate)), w)
  }

  function ClaimOnce(cfg: Config, s: State, w: nat, gate: GateResult, result: SendResult): State
    requires Worker(s, w).Claiming?
  {
    var claimed := WorkerDoes(cfg, s, w, Claim(Applied));
    if Worker(claimed, w).Owning? then AttemptOnce(cfg, claimed, w, gate, result) else claimed
  }

  /** A message is handled, up to the reply. */
  function DispatchOnce(cfg: Config, s: State, w: nat, gate: GateResult, result: SendResult): State
    requires WorkerCan(cfg, s, w, Find(true))
  {
    var found := WorkerDoes(cfg, s, w, Find(true));
    if Worker(found, w).Claiming? then ClaimOnce(cfg, found, w, gate, result) else found
  }

  // ----- What that means

  lemma ConcludeStep(cfg: Config, s: State, w: nat, op: WorkerOp) returns (t: State)
    requires op == NextCall(Worker(s, w)) && WorkerCan(cfg, s, w, op)
    ensures t == WorkerDoes(cfg, s, w, op) && Concluded(cfg, s, w) == Concluded(cfg, t, w)
  {
    t := WorkerDoes(cfg, s, w, op);
  }

  lemma ConcludedSuccess(cfg: Config, s: State, w: nat)
    requires Worker(s, w).Owning? && Worker(s, w).stage == SavingSuccess && Worker(s, w).attempt.Some?
    ensures var Owning(copy, d, _, attempt, _) := Worker(s, w);
            Concluded(cfg, s, w) ==
            s.(db := WithAttempt(Updated(s.db, d), d.id, attempt.value), workers := s.workers[w := Replying(copy, true)])
  {
    var s1 := ConcludeStep(cfg, s, w, Save(Applied));
    var s2 := ConcludeStep(cfg, s1, w, Record(Applied));
    var s3 := ConcludeStep(cfg, s2, w, Audit(true));
    assert s3.workers == s.workers[w := Replying(Worker(s, w).copy, true)];
  }

  lemma ConcludedRetry(cfg: Config, s: State, w: nat)
    requires Worker(s, w).Owning? && Worker(s, w).stage == SavingRetry && Worker(s, w).attempt.Some?
    ensures var Owning(copy, d, _, attempt, _) := Worker(s, w);
            Concluded(cfg, s, w) ==
            s.(db := WithAttempt(Updated(s.db, d), d.id, attempt.value), workers := s.workers[w := Replying(copy, false)])
  {
    var s1 := ConcludeStep(cfg, s, w, Save(Applied));
    var s2 := ConcludeStep(cfg, s1, w, Record(Applied));
    assert s2.workers == s.workers[w := Replying(Worker(s, w).copy, false)];
  }

  lemma ConcludedDlq(cfg: Config, s: State, w: nat)
    requires Worker(s, w).Owning? && Worker(s, w).stage == SavingDlq
    ensures var Owning(copy, d, _, _, _) := Worker(s, w);
            Concluded(cfg, s, w) ==
            s.(db := Updated(s.db, d), bus := DeadLettered(s.bus, d), workers := s.workers[w := Replying(copy, true)])
  {
    var s1 := ConcludeStep(cfg, s, w, Save(Applied));
    var s2 := ConcludeStep(cfg, s1, w, PublishDead(Applied));
    var s3 := ConcludeStep(cfg, s2, w, Audit(true));
    assert s3.workers == s.workers[w := Replying(Worker(s, w).copy, true)];
  }

  lemma ConcludedFailure(cfg: Config, s: State, w: nat)
    requires Worker(s, w).Owning? && Worker(s, w).stage == RecordingDlq && Worker(s, w).attempt.Some?
    ensures var Owning(copy, d, _, attempt, _) := Worker(s, w);
            Concluded(cfg, s, w) ==
            s.(db := Updated(WithAttempt(s.db, d.id, attempt.value), d), bus := DeadLettered(s.bus, d),
               workers := s.workers[w := Replying(copy, true)])
  {
    var s1 := ConcludeStep(cfg, s, w, Record(Applied));
    ConcludedDlq(cfg, s1, w);
    assert s1.workers[w := Replying(Worker(s, w).copy, true)] == s.workers[w := Replying(Worker(s, w).copy, true)];
  }

  /**
    From `s` to `t` the worker has stored this row, with this attempt if there was one, after this call of the
    provider if there was one. The delivery is announced if it is dead, and the worker is about to acknowledge the
    message unless it is to come again. Nothing else has changed.
  */
  ghost predicate Settled(s: State, t: State, w: nat, copy: Copy, row: Row, attempt: Option<Attempt>, sent: Option<bool>) {
    t == s.(db := s.db.(deliveries := s.db.deliveries[row.id := row],
                        attempts := s.db.attempts + if attempt.Some? then [AttemptRow(row.id, attempt.value)] else []),
            bus := s.bus.(dead := s.bus.dead + if row.status == Dlq then [DeadLetter(row)] else []),
            workers := s.workers[w := Replying(copy, row.status != Retrying)],
            log := s.log.(sends := s.log.sends + if sent.Some? then [SendEvent(row.id, s.now, sent.value)] else []))
  }

  function DeadLetter(row: Row): Message {
    Message(row.id, Routing.DlqSubject(row.key.channel), false)
  }

  /** After a failed attempt: dead, or to be retried with the retry counted; either way with the error of the attempt. */
  ghost predicate Failed(
    cfg: Config, s: State, t: State, w: nat, copy: Copy, d: Row, error: string, permanent: bool, sent: Option<bool>)
  {
    var attempt := Some(Attempt(d.retryCount + 1, d.updatedAt, Some(s.now), error, false));
    if permanent || d.retryCount + 1 >= cfg.maxAttempts
    then Settled(s, t, w, copy, d.(status := Dlq, lastError := error, updatedAt := s.now), attempt, sent)
    else Settled(s, t, w, copy, d.(status := Retrying, retryCount := d.retryCount + 1, lastError := error, updatedAt := s.now), attempt, sent)
  }

  /** What becomes of a claimed delivery. The attempt starts at its claim, and the one of a success is stored unfinished. */
  ghost predicate Handled(
    cfg: Config, s: State, t: State, w: nat, copy: Copy, d: Row, gate: GateResult, result: SendResult)
  {
    match gate
    case NoProvider => Settled(s, t, w, copy, d.(status := Dlq, lastError := "no provider for channel"), None, None)
    case Tripped => Failed(cfg, s, t, w, copy, d, "transient error", false, None)
    case Cleared =>
      match result
      case Delivered =>
        Settled(s, t, w, copy, d.(status := Succeeded, lastError := "", updatedAt := s.now),
                Some(Attempt(d.retryCount + 1, d.updatedAt, None, "", false)), Some(true))
      case TransientError(msg) => Failed(cfg, s, t, w, copy, d, msg, false, Some(false))
      case PermanentError(msg) => Failed(cfg, s, t, w, copy, d, msg, true, Some(false))
  }

  /** Where the worker stood does not matter, and what it has sent counts as sent. */
  lemma SettledFrom(
    s: State, m: State, t: State, w: nat, copy: Copy, row: Row, attempt: Option<Attempt>, sent: Option<bool>)
    requires w in m.workers && m == s.(workers := s.workers[w := m.workers[w]], log := s.log.(sends := m.log.sends))
    requires m.log.sends == s.log.sends + if sent.Some? then [SendEvent(row.id, s.now, sent.value)] else []
    requires Settled(m, t, w, copy, row, attempt, None)
    ensures Settled(s, t, w, copy, row, attempt, sent)
  {
    assert t.workers == s.workers[w := Replying(copy, row.status != Retrying)];
    assert m.log.sends + [] == m.log.sends;
  }

  lemma SettledFailure(cfg: Config, s: State, w: nat, copy: Copy, d: Row, permanent: bool, msg: string)
    requires Identifies(s, d) && Worker(s, w) == AfterFailure(cfg, copy, d, NewAttempt(d), permanent, msg, s.now)
    ensures Failed(cfg, s, Concluded(cfg, s, w), w, copy, d, msg, permanent, None)
  {
    if permanent || d.retryCount + 1 >= cfg.maxAttempts {
      SettledDlq(cfg, s, w, copy, d, permanent, msg);
    } else {
      SettledRetry(cfg, s, w, copy, d, msg);
    }
  }

  lemma SettledRetry(cfg: Config, s: State, w: nat, copy: Copy, d: Row, msg: string)
    requires Identifies(s, d) && Worker(s, w) == AfterFailure(cfg, copy, d, NewAttempt(d), false, msg, s.now)
    requires d.retryCount + 1 < cfg.maxAttempts
    ensures Failed(cfg, s, Concluded(cfg, s, w), w, copy, d, msg, false, None)
  {
    ConcludedRetry(cfg, s, w);
  }

  lemma SettledDlq(cfg: Config, s: State, w: nat, copy: Copy, d: Row, permanent: bool, msg: string)
    requires Identifies(s, d) && Worker(s, w) == AfterFailure(cfg, copy, d, NewAttempt(d), permanent, msg, s.now)
    requires permanent || d.retryCount + 1 >= cfg.maxAttempts
    ensures Failed(cfg, s, Concluded(cfg, s, w), w, copy, d, msg, permanent, None)
  {
    ConcludedFailure(cfg, s, w);
  }

  lemma SettledWithoutProvider(cfg: Config, s: State, w: nat, copy: Copy, d: Row)
    requires Identifies(s, d) && Worker(s, w) == Owning(copy, MarkedDlq(d, "no provider for channel", d.updatedAt), d, None, SavingDlq)
    ensures Settled(s, Concluded(cfg, s, w), w, copy, d.(status := Dlq, lastError := "no provider for channel"), None, None)
  {
    ConcludedDlq(cfg, s, w);
  }

  lemma SettledSuccess(cfg: Config, s: State, w: nat, copy: Copy, d: Row)
    requires Identifies(s, d) && Worker(s, w) == Owning(copy, MarkedSucceeded(d, s.now), d, Some(NewAttempt(d)), SavingSuccess)
    ensures Settled(s, Concluded(cfg, s, w), w, copy, d.(status := Succeeded, lastError := "", updatedAt := s.now),
                    Some(Attempt(d.retryCount + 1, d.updatedAt, None, "", false)), None)
  {
    ConcludedSuccess(cfg, s, w);
  }

  /** The row is a version of the stored one. */
  predicate Identifies(s: State, d: Row) {
    d.id in s.db.deliveries && SameIdentity(s.db.deliveries[d.id], d)
  }

  lemma FailedFrom(
    cfg: Config, s: State, m: State, t: State, w: nat, copy: Copy, d: Row, error: string, permanent: bool, sent: Option<bool>)
    requires w in m.workers && m == s.(workers := s.workers[w := m.workers[w]], log := s.log.(sends := m.log.sends))
    requires m.log.sends == s.log.sends + if sent.Some? then [SendEvent(d.id, s.now, sent.value)] else []
    requires Failed(cfg, m, t, w, copy, d, error, permanent, None)
    ensures Failed(cfg, s, t, w, copy, d, error, permanent, sent)
  {
    var attempt := Some(Attempt(d.retryCount + 1, d.updatedAt, Some(s.now), error, false));
    var dead := d.(status := Dlq, lastError := error, updatedAt := s.now);
    var retried := d.(status := Retrying, retryCount := d.retryCount + 1, lastError := error, updatedAt := s.now);
    SettledFrom(s, m, t, w, copy, if permanent || d.retryCount + 1 >= cfg.maxAttempts then dead else retried, attempt, sent);
  }

  /** The call of the provider, and what follows. */
  lemma SentMeans(cfg: Config, s: State, w: nat, copy: Copy, d: Row, result: SendResult)
    requires Identifies(s, d) && Worker(s, w).Owning? && Worker(s, w).stage == Gating && Worker(s, w).d == d && Worker(s, w).copy == copy
    ensures Handled(cfg, s, Concluded(cfg, SentOnce(cfg, s, w, result), w), w, copy, d, Cleared, result)
  {
    var m := SentOnce(cfg, s, w, result);
    var t := Concluded(cfg, m, w);
    assert m.workers == s.workers[w := m.workers[w]];
    match result
    case Delivered =>
      SettledSuccess(cfg, m, w, copy, d);
      SettledFrom(s, m, t, w, copy, d.(status := Succeeded, lastError := "", updatedAt := s.now),
                  Some(Attempt(d.retryCount + 1, d.updatedAt, None, "", false)), Some(true));
    case TransientError(msg) =>
      SettledFailure(cfg, m, w, copy, d, false, msg);
      FailedFrom(cfg, s, m, t, w, copy, d, msg, false, Some(false));
    case PermanentError(msg) =>
      SettledFailure(cfg, m, w, copy, d, true, msg);
      FailedFrom(cfg, s, m, t, w, copy, d, msg, true, Some(false));
  }

  lemma AttemptMeans(cfg: Config, s: State, w: nat, gate: GateResult, result: SendResult)
    requires var pc := Worker(s, w); pc.Owning? && pc.stage == Gating && Identifies(s, pc.d)
    ensures Handled(cfg, s, AttemptOnce(cfg, s, w, gate, result), w, Worker(s, w).copy, Worker(s, w).d, gate, result)
  {
    var Owning(copy, d, _, _, _) := Worker(s, w);
    var t := AttemptOnce(cfg, s, w, gate, result);
    var m := WorkerDoes(cfg, s, w, Gate(gate));
    match gate
    case NoProvider =>
      SettledWithoutProvider(cfg, m, w, copy, d);
      SettledFrom(s, m, t, w, copy, d.(status := Dlq, lastError := "no provider for channel"), None, None);
    case Tripped =>
      SettledFailure(cfg, m, w, copy, d, false, "transient error");
      FailedFrom(cfg, s, m, t, w, copy, d, "transient error", false, None);
    case Cleared => SentMeans(cfg, s, w, copy, d, result);
  }

  /** What is stored for the claimed delivery replaces what the claim stored. */
  lemma HandledFrom(cfg: Config, s: State, m: State, t: State, w: nat, copy: Copy, d: Row, gate: GateResult, result: SendResult)
    requires w in m.workers && m == s.(db := s.db.(deliveries := s.db.deliveries[d.id := d]), workers := s.workers[w := m.workers[w]])
    requires Handled(cfg, m, t, w, copy, d, gate, result)
    ensures Handled(cfg, s, t, w, copy, d, gate, result)
  {
    assert forall row: Row, ack :: row.id == d.id ==>
             m.db.deliveries[d.id := row] == s.db.deliveries[d.id := row] && m.workers[w := Replying(copy, ack)] == s.workers[w := Replying(copy, ack)];
  }

  lemma ClaimMeans(cfg: Config, s: State, w: nat, id: nat, gate: GateResult, result: SendResult)
    requires Worker(s, w).Claiming? && Worker(s, w).d.id == id && HasStatus(s.db, id, Worker(s, w).prev)
    requires Worker(s, w).d == Stamped(s.db.deliveries[id], Processing, s.now)
    ensures Handled(cfg, s, ClaimOnce(cfg, s, w, gate, result), w, Worker(s, w).copy, Worker(s, w).d, gate, result)
  {
    var pc, m := Worker(s, w), WorkerDoes(cfg, s, w, Claim(Applied));
    AttemptMeans(cfg, m, w, gate, result);
    assert m.db.deliveries == s.db.deliveries[id := pc.d];
    HandledFrom(cfg, s, m, ClaimOnce(cfg, s, w, gate, result), w, pc.copy, pc.d, gate, result);
  }

  /**
    A message is handled once and for all: a delivery that waits to be claimed is stored as provider, breaker and
    retry limit call for, with its error, with one attempt row, and with one provider call at most. Any other
    delivery stays as it is, and its message is acknowledged exactly if the delivery has ended.
  */
  lemma DispatchMeans(cfg: Config, s: State, w: nat, id: nat, gate: GateResult, result: SendResult)
    requires WorkerCan(cfg, s, w, Find(true)) && s.bus.stream[Worker(s, w).copy.msg].delivery == id
    requires id in s.db.deliveries ==> s.db.deliveries[id].id == id
    ensures var t, copy := DispatchOnce(cfg, s, w, gate, result), Worker(s, w).copy;
            if HasStatus(s.db, id, Queued) || HasStatus(s.db, id, Retrying)
            then Handled(cfg, s, t, w, copy, s.db.deliveries[id].(status := Processing, updatedAt := s.now), gate, result)
            else t == s.(workers := s.workers[w := Replying(copy, HasStatus(s.db, id, Succeeded) || HasStatus(s.db, id, Dlq))])
  {
    if HasStatus(s.db, id, Queued) || HasStatus(s.db, id, Retrying) {
      var m := WorkerDoes(cfg, s, w, Find(true));
      ClaimMeans(cfg, m, w, id, gate, result);
      var d := Worker(m, w).d;
      assert forall ack :: m.workers[w := Replying(Worker(s, w).copy, ack)] == s.workers[w := Replying(Worker(s, w).copy, ack)];
    }
  }
}
