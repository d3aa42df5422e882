/**
  What the attempts table holds, and what the backoff is called with.
*/
module Attempts {
  import opened Wrappers
  import opened Notification
  import opened Protocol
  import opened Frames
  import opened Safety
  import Backoff

  /** Attempts are numbered within the retry limit, and none is marked as a success. */
  predicate Ordinary(cfg: Config, attempt: Attempt) {
    1 <= attempt.number <= RetryLimit(cfg) && !attempt.success
  }

  predicate InHandOk(cfg: Config, pc: WorkerPc) {
    && (pc.Owning? || pc.Closing? ==> pc.attempt.Some? ==> Ordinary(cfg, pc.attempt.value))
    && (pc.Closing? && pc.rest == RecordingRetry ==> 1 <= pc.d.retryCount < cfg.maxAttempts)
  }

  ghost predicate AttemptsInv(cfg: Config, s: State) {
    && (forall i :: 0 <= i < |s.db.attempts| ==> Ordinary(cfg, s.db.attempts[i].attempt))
    && (forall w :: w in s.workers ==> InHandOk(cfg, s.workers[w]))
  }

  lemma WorkerKeepsAttempts(cfg: Config, s: State, w: nat, op: WorkerOp)
    requires AttemptsInv(cfg, s) && WorkerCan(cfg, s, w, op) && WorkerOk(cfg, s, Worker(s, w))
    ensures AttemptsInv(cfg, WorkerDoes(cfg, s, w, op))
  {
    var t := WorkerDoes(cfg, s, w, op);
    assert InHandOk(cfg, t.workers[w]);
  }

  lemma {:induction false} RunKeepsAttempts(cfg: Config, acts: seq<Action>)
    requires RunFrom(cfg, INIT, acts).Some?
    ensures AttemptsInv(cfg, RunFrom(cfg, INIT, acts).value)
  {
    if acts != [] {
      var before := acts[..|acts| - 1];
      RunKeepsAttempts(cfg, before);
      StepKeepsAttempts(cfg, RunFrom(cfg, INIT, before).value, acts[|acts| - 1]);
    }
  }

  lemma StepKeepsAttempts(cfg: Config, s: State, a: Action)
    requires Reachable(cfg, s) && AttemptsInv(cfg, s) && Enabled(cfg, s, a)
    ensures AttemptsInv(cfg, Apply(cfg, s, a))
  {
    match a
    case ByWorker(w, op) =>
      ReachableInv(cfg, s);
      WorkerKeepsAttempts(cfg, s, w, op);
    case _ => OthersFrame(cfg, s, a);
  }

  /** No attempt is ever stored as a success, not even that of a delivery that succeeded. */
  lemma PersistedAttemptsNeverSucceed(cfg: Config, s: State)
    requires Reachable(cfg, s)
    ensures forall i :: 0 <= i < |s.db.attempts| ==>
              !s.db.attempts[i].attempt.success && 1 <= s.db.attempts[i].attempt.number <= RetryLimit(cfg)
  {
    var acts :| RunFrom(cfg, INIT, acts) == Some(s);
    RunKeepsAttempts(cfg, acts);
  }

  /**
    In every run, whenever a worker comes to the backoff, it is called with 1 .. maxAttempts - 1. With settings
    for which the longest delays fit, it returns, and the delay is in range.
  */
  lemma BackoffIsInRange(cfg: Config, s: State, w: nat, base: int, max: int, draw: nat)
    requires Reachable(cfg, s) && Worker(s, w).Closing? && Worker(s, w).rest == RecordingRetry
    requires base >= 2 && max >= 2 && max + max / 2 <= Backoff.MAX64
    requires cfg.maxAttempts >= 2 ==> base * Backoff.Pow2(cfg.maxAttempts - 2) <= Backoff.MAX64
    ensures var n := Worker(s, w).d.retryCount;
            && 1 <= n <= cfg.maxAttempts - 1
            && var m := Backoff.Ceiling(n, base, max);
               var delay := Backoff.Delay(n, base, max, draw);
               delay.Some? && m <= delay.value < m + m / 2
  {
    var acts :| RunFrom(cfg, INIT, acts) == Some(s);
    RunKeepsAttempts(cfg, acts);
    var n := Worker(s, w).d.retryCount;
    assert InHandOk(cfg, Worker(s, w));
    Backoff.ScaledGrows(base, n - 1, cfg.maxAttempts - 2);
    Backoff.DelayInRange(n, base, max, draw);
  }
}
