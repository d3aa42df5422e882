/**
  The sliding-window circuit breaker (pkg/circuitbreaker/breaker.go).

  The class keeps a pruned list of failure times, a state and the time it opened.
  Its meaning is given by the whole history of calls and answers: `Follows` says
  which answer each call must get, from the history alone. Every call runs under
  the mutex, so any interleaving of callers is a sequence of calls.
*/
module CircuitBreaker {
  import opened Wrappers

  datatype Limits = Limits(threshold: int, window: int, cooldown: int)

  /** A call and its answer. `trips` says that the failure opened the breaker, or opened it again. */
  datatype Event =
    | Allowed(at: int)
    | Denied(at: int)
    | Succeeded(at: int)
    | Failed(at: int, trips: bool)

  predicate Opens(e: Event) { e.Failed? && e.trips }

  predicate Monotone(h: seq<Event>) {
    forall i, j :: 0 <= i < j < |h| ==> h[i].at <= h[j].at
  }

  function Front<T>(s: seq<T>): seq<T>
    requires s != []
  {
    s[..|s| - 1]
  }

  function Last<T>(s: seq<T>): T
    requires s != []
  {
    s[|s| - 1]
  }

  // ----- The definition over the whole history

  /** The last failure that opened the breaker, if no success came after it. */
  function Opening(h: seq<Event>): (r: Option<nat>)
    ensures r.Some? ==> r.value < |h|
  {
    if h == [] || Last(h).Succeeded? then None
    else if Opens(Last(h)) then Some(|h| - 1)
    else Opening(Front(h))
  }

  lemma {:induction false} OpeningIsLast(h: seq<Event>)
    ensures var r := Opening(h);
            && (r.Some? ==> Opens(h[r.value]) && forall j :: r.value < j < |h| ==> !Opens(h[j]) && !h[j].Succeeded?)
            && (r.None? ==> forall i :: 0 <= i < |h| && Opens(h[i]) ==> exists j :: i < j < |h| && h[j].Succeeded?)
  {
    if h != [] {
      OpeningIsLast(Front(h));
      if Opening(h).None? && !Last(h).Succeeded? {
        forall i | 0 <= i < |h| && Opens(h[i]) ensures exists j :: i < j < |h| && h[j].Succeeded? {
          assert Opens(Front(h)[i]);
          var j :| i < j < |h| - 1 && Front(h)[j].Succeeded?;
          assert h[j].Succeeded?;
        }
      }
    }
  }

  predicate Tripped(h: seq<Event>) { Opening(h).Some? }

  /** A call has been let through since the breaker opened. */
  predicate Probing(h: seq<Event>) {
    Tripped(h) && exists j :: Opening(h).value < j < |h| && h[j].Allowed?
  }

  /** The times of the failures since the last success. */
  function Failures(h: seq<Event>): seq<int> {
    if h == [] || Last(h).Succeeded? then []
    else if Last(h).Failed? then Failures(Front(h)) + [Last(h).at]
    else Failures(Front(h))
  }

  function Newer(ts: seq<int>, cutoff: int): seq<int> {
    if ts == [] then []
    else if Last(ts) > cutoff then Newer(Front(ts), cutoff) + [Last(ts)]
    else Newer(Front(ts), cutoff)
  }

  /** The last failure, after the earlier ones that are strictly inside its window. */
  function Recent(h: seq<Event>, window: int): seq<int> {
    var ts := Failures(h);
    if ts == [] then [] else Newer(Front(ts), Last(ts) - window) + [Last(ts)]
  }

  /** The answer `e` is the one that a history `h` calls for. */
  predicate Follows(l: Limits, h: seq<Event>, e: Event) {
    match e
    case Allowed(at) => Tripped(h) && !Probing(h) ==> at >= h[Opening(h).value].at + l.cooldown
    case Denied(at) => Tripped(h) && !Probing(h) && at < h[Opening(h).value].at + l.cooldown
    case Succeeded(_) => true
    case Failed(_, trips) => trips <==> Probing(h) || |Recent(h + [e], l.window)| >= l.threshold
  }

  /** Every answer followed from the history before it. */
  predicate Conforms(l: Limits, h: seq<Event>) {
    h == [] || (Conforms(l, Front(h)) && Follows(l, Front(h), Last(h)))
  }

  lemma {:induction false} ConformsAt(l: Limits, h: seq<Event>, n: nat)
    requires Conforms(l, h) && n < |h|
    ensures Follows(l, h[..n], h[n])
  {
    if n < |h| - 1 {
      ConformsAt(l, Front(h), n);
      assert Front(h)[..n] == h[..n];
    }
  }

  // ----- The breaker

  datatype Circuit = Closed | Open | HalfOpen

  predicate CircuitAfter(h: seq<Event>, state: Circuit) {
    match state
    case Closed => !Tripped(h)
    case Open => Tripped(h) && !Probing(h)
    case HalfOpen => Probing(h)
  }

  /** The fields of a breaker are what its history says, and every answer was the one called for. */
  ghost predicate Explained(l: Limits, h: seq<Event>, failures: seq<int>, state: Circuit, openedAt: int) {
    && Monotone(h) && Conforms(l, h)
    && failures == Recent(h, l.window) && CircuitAfter(h, state)
    && (Tripped(h) ==> openedAt == h[Opening(h).value].at)
  }

  predicate NoneAfter(h: seq<Event>, now: int) {
    forall i :: 0 <= i < |h| ==> h[i].at <= now
  }

  /** A caller made these calls in this order, the last one last of all; others may have called before and between. */
  predicate Heard(before: seq<Event>, after: seq<Event>, calls: seq<Event>)
    decreases |calls|
  {
    if calls == [] then after == before
    else
      && after != [] && Last(after) == Last(calls)
      && exists n :: |before| <= n < |after| && Heard(before, after[..n], Front(calls))
  }

  lemma {:induction false} HeardGrows(before: seq<Event>, after: seq<Event>, calls: seq<Event>)
    requires Heard(before, after, calls)
    ensures before <= after
    decreases |calls|
  {
    if calls != [] {
      var n :| |before| <= n < |after| && Heard(before, after[..n], Front(calls));
      HeardGrows(before, after[..n], Front(calls));
    }
  }

  /** One more call, after any calls of others. */
  lemma HeardNext(before: seq<Event>, mid: seq<Event>, after: seq<Event>, calls: seq<Event>, e: Event)
    requires Heard(before, mid, calls) && mid < after && Last(after) == e
    ensures Heard(before, after, calls + [e])
  {
    HeardGrows(before, mid, calls);
    assert after[..|mid|] == mid && Front(calls + [e]) == calls;
  }

  lemma HeardOnce(before: seq<Event>, mid: seq<Event>, e: Event)
    requires before <= mid
    ensures Heard(before, mid + [e], [e])
  {
    assert (mid + [e])[..|before|] == before && Front([e]) == [];
  }

  lemma HeardTwice(before: seq<Event>, mid: seq<Event>, after: seq<Event>, a: Event, b: Event)
    requires Heard(before, mid, [a]) && Heard(mid, after, [b])
    ensures Heard(before, after, [a, b])
  {
    HeardGrows(mid, after, [b]);
    HeardNext(before, mid, after, [a], b);
    assert [a] + [b] == [a, b];
  }

  class Breaker {
    const limits: Limits
    var failures: seq<int>
    var state: Circuit
    var openedAt: int
    ghost var history: seq<Event>

    constructor (limits: Limits)
      ensures this.limits == limits && Valid() && history == []
    {
      this.limits := limits;
      failures, state, openedAt := [], Closed, 0;
      history := [];
    }

    ghost predicate Valid()
      reads this
    {
      Explained(limits, history, failures, state, openedAt)
    }

    method Allow(now: int) returns (ok: bool)
      requires Valid() && NoneAfter(history, now)
      modifies this`state, this`history
      ensures Valid() && NoneAfter(history, now) && history == old(history) + [if ok then Allowed(now) else Denied(now)]
    {
      match state {
        case Open =>
          ok := now - openedAt >= limits.cooldown;
          if ok {
            state := HalfOpen;
          }
        case _ =>
          ok := true;
      }
      history := history + [if ok then Allowed(now) else Denied(now)];
      AnswerExplained(limits, old(history), failures, old(state), openedAt, Last(history));
    }

    method RecordSuccess(now: int)
      requires Valid() && NoneAfter(history, now)
      modifies this`failures, this`state, this`history
      ensures Valid() && NoneAfter(history, now) && history == old(history) + [Succeeded(now)]
    {
      history := history + [Succeeded(now)];
      SuccessExplained(limits, old(history), old(failures), old(state), openedAt, Succeeded(now));
      failures := [];
      state := Closed;
    }

    method RecordFailure(now: int) returns (ghost trips: bool)
      requires Valid() && NoneAfter(history, now)
      modifies this`failures, this`state, this`openedAt, this`history
      ensures Valid() && NoneAfter(history, now) && history == old(history) + [Failed(now, trips)]
    {
      var recent := Pruned(failures, now - limits.window);
      recent := recent + [now];
      trips := state == HalfOpen || |recent| >= limits.threshold;
      FailureExplained(limits, history, failures, recent, state, openedAt, Failed(now, trips));
      failures := recent;

      if state == HalfOpen || |failures| >= limits.threshold {
        state := Open;
        openedAt := now;
      }
      history := history + [Failed(now, trips)];
    }
  }

  /** The loop that keeps the failures inside the window. */
  method Pruned(failures: seq<int>, cutoff: int) returns (recent: seq<int>)
    ensures recent == Newer(failures, cutoff)
  {
    recent := [];
    var i := 0;
    while i < |failures|
      invariant 0 <= i <= |failures| && recent == Newer(failures[..i], cutoff)
    {
      NewerOfOneMore(failures, i, cutoff);
      if failures[i] > cutoff {
        recent := recent + [failures[i]];
      }
      i := i + 1;
    }
    assert failures[..i] == failures;
  }

  lemma NewerOfOneMore(ts: seq<int>, i: nat, cutoff: int)
    requires i < |ts|
    ensures Newer(ts[..i + 1], cutoff) == Newer(ts[..i], cutoff) + if ts[i] > cutoff then [ts[i]] else []
  {
    assert ts[..i + 1] == ts[..i] + [ts[i]];
  }

  lemma Snoc(h: seq<Event>, e: Event)
    ensures Front(h + [e]) == h && Last(h + [e]) == e
    ensures Opening(h + [e]) == if e.Succeeded? then None else if Opens(e) then Some(|h|) else Opening(h)
    ensures Failures(h + [e]) == if e.Succeeded? then [] else if e.Failed? then Failures(h) + [e.at] else Failures(h)
  {
    assert Front(h + [e]) == h;
  }

  lemma ProbingSnoc(h: seq<Event>, e: Event)
    ensures Probing(h + [e]) <==> !e.Succeeded? && !Opens(e) && Tripped(h) && (Probing(h) || e.Allowed?)
  {
    var g := h + [e];
    Snoc(h, e);
    if Tripped(h) && !e.Succeeded? && !Opens(e) {
      var o := Opening(h).value;
      if e.Allowed? { assert o < |h| < |g| && g[|h|].Allowed?; }
      if Probing(h) {
        var j :| o < j < |h| && h[j].Allowed?;
        assert g[j].Allowed?;
      }
    }
  }

  lemma MonotoneSnoc(h: seq<Event>, e: Event)
    requires Monotone(h) && NoneAfter(h, e.at)
    ensures Monotone(h + [e])
  {
  }

  lemma AnswerExplained(l: Limits, h: seq<Event>, failures: seq<int>, state: Circuit, openedAt: int, e: Event)
    requires Explained(l, h, failures, state, openedAt) && NoneAfter(h, e.at)
    requires e == if state == Open && e.at - openedAt < l.cooldown then Denied(e.at) else Allowed(e.at)
    ensures Explained(l, h + [e], failures, if e.Allowed? && state == Open then HalfOpen else state, openedAt)
  {
    MonotoneSnoc(h, e);
    Snoc(h, e);
    ProbingSnoc(h, e);
  }

  lemma SuccessExplained(l: Limits, h: seq<Event>, failures: seq<int>, state: Circuit, openedAt: int, e: Event)
    requires Explained(l, h, failures, state, openedAt) && NoneAfter(h, e.at) && e.Succeeded?
    ensures Explained(l, h + [e], [], Closed, openedAt)
  {
    MonotoneSnoc(h, e);
    Snoc(h, e);
    ProbingSnoc(h, e);
  }

  lemma FailureExplained(l: Limits, h: seq<Event>, failures: seq<int>, recent: seq<int>, state: Circuit, openedAt: int, e: Event)
    requires Explained(l, h, failures, state, openedAt) && NoneAfter(h, e.at) && e.Failed?
    requires recent == Newer(failures, e.at - l.window) + [e.at]
    requires e.trips <==> state == HalfOpen || |recent| >= l.threshold
    ensures Explained(l, h + [e], recent, if e.trips then Open else state, if e.trips then e.at else openedAt)
  {
    PruneOnce(h, e, l.window);
    MonotoneSnoc(h, e);
    FailureCircuit(h, state, openedAt, e);
    assert Follows(l, h, e);
    assert Front(h + [e]) == h;
  }

  lemma FailureCircuit(h: seq<Event>, state: Circuit, openedAt: int, e: Event)
    requires CircuitAfter(h, state) && e.Failed? && (state == HalfOpen ==> e.trips)
    requires Tripped(h) ==> openedAt == h[Opening(h).value].at
    ensures CircuitAfter(h + [e], if e.trips then Open else state)
    ensures Tripped(h + [e]) ==> (h + [e])[Opening(h + [e]).value].at == if e.trips then e.at else openedAt
  {
    Snoc(h, e);
    ProbingSnoc(h, e);
  }

  // ----- Pruning at every failure loses nothing that a later window holds

  lemma {:induction false} NewerNewer(ts: seq<int>, a: int, b: int)
    requires a <= b
    ensures Newer(Newer(ts, a), b) == Newer(ts, b)
  {
    if ts != [] {
      NewerNewer(Front(ts), a, b);
      var kept := Newer(Front(ts), a);
      assert Front(kept + [Last(ts)]) == kept;
    }
  }

  lemma {:induction false} FailuresAreEvents(h: seq<Event>, t: int)
    requires t in Failures(h)
    ensures exists i :: 0 <= i < |h| && h[i].at == t
  {
    if Last(h).Failed? && t == Last(h).at {
      assert h[|h| - 1].at == t;
    } else {
      FailuresAreEvents(Front(h), t);
      var i :| 0 <= i < |h| - 1 && Front(h)[i].at == t;
      assert h[i].at == t;
    }
  }

  /** Pruning the list of the last failure gives the list of the next one. */
  lemma PruneOnce(h: seq<Event>, e: Event, window: int)
    requires e.Failed? && forall i :: 0 <= i < |h| ==> h[i].at <= e.at
    ensures Recent(h + [e], window) == Newer(Recent(h, window), e.at - window) + [e.at]
  {
    Snoc(h, e);
    var ts := Failures(h);
    var cutoff := e.at - window;
    assert Front(ts + [e.at]) == ts && Last(ts + [e.at]) == e.at;
    assert Recent(h + [e], window) == Newer(ts, cutoff) + [e.at];
    if ts != [] {
      var kept := Newer(Front(ts), Last(ts) - window);
      FailuresAreEvents(h, Last(ts));
      NewerNewer(Front(ts), Last(ts) - window, cutoff);
      assert Front(kept + [Last(ts)]) == kept;
    }
  }

  // ----- What the answers promise

  /** With a positive window, the list is the failures since the last success in the window of the last one. */
  lemma RecentIsTheWindow(h: seq<Event>, window: int)
    requires window > 0 && Failures(h) != []
    ensures Recent(h, window) == Newer(Failures(h), Last(Failures(h)) - window)
  {
  }

  /** A breaker that is not open has seen fewer failures in its window than the threshold. */
  lemma {:induction false} ClosedMeansFew(l: Limits, h: seq<Event>)
    requires Conforms(l, h) && l.threshold >= 1 && !Tripped(h)
    ensures |Recent(h, l.window)| < l.threshold
  {
    if h != [] {
      var e := Last(h);
      assert h == Front(h) + [e];
      Snoc(Front(h), e);
      if !e.Succeeded? { ClosedMeansFew(l, Front(h)); }
    }
  }

  /** A closed breaker opens at a failure exactly when the failures in its window reach the threshold. */
  lemma OpensAtThreshold(l: Limits, h: seq<Event>, e: Event)
    requires Conforms(l, h + [e]) && e.Failed? && !Tripped(h)
    ensures Tripped(h + [e]) <==> |Recent(h + [e], l.window)| >= l.threshold
  {
    Snoc(h, e);
  }

  /** `i` opened the breaker and nothing up to `n` succeeded. */
  predicate Unrecovered(h: seq<Event>, i: nat, n: nat) {
    i < n <= |h| && Opens(h[i]) && forall k :: i < k < n ==> !h[k].Succeeded?
  }

  /** Until a success, the last opening is `i` or a later one. */
  lemma StillTripped(h: seq<Event>, i: nat, n: nat)
    requires Unrecovered(h, i, n)
    ensures Tripped(h[..n]) && i <= Opening(h[..n]).value
  {
    OpeningIsLast(h[..n]);
    assert Opens(h[..n][i]);
  }

  /** After the breaker opens, no call passes before the cooldown is over unless one succeeds first. */
  lemma {:induction false} CooldownIsKept(l: Limits, h: seq<Event>, i: nat, j: nat)
    requires Conforms(l, h) && Monotone(h) && j < |h| && Unrecovered(h, i, j) && h[j].Allowed?
    ensures h[j].at >= h[i].at + l.cooldown
    decreases j
  {
    StillTripped(h, i, j);
    ConformsAt(l, h, j);
    var o := Opening(h[..j]).value;
    OpeningIsLast(h[..j]);
    assert h[i].at <= h[o].at;
    if Probing(h[..j]) {
      var k :| o < k < j && h[..j][k].Allowed?;
      CooldownIsKept(l, h, o, k);
    }
  }

  /** Once open, calls that are granted with a failure in between, and no success, are a cooldown apart. */
  lemma ProbesAreSpaced(l: Limits, h: seq<Event>, i: nat, k: nat, j: nat)
    requires Conforms(l, h) && Monotone(h) && i < k < j < |h|
    requires h[i].Allowed? && h[k].Failed? && h[j].Allowed? && Tripped(h[..i])
    requires forall m :: i < m < j ==> !h[m].Succeeded?
    ensures h[j].at >= h[i].at + l.cooldown
  {
    var m := FirstFailure(h, i + 1, k);
    ProbeFails(l, h, i, m);
    CooldownIsKept(l, h, m, j);
  }

  lemma {:induction false} FirstFailure(h: seq<Event>, from: nat, k: nat) returns (m: nat)
    requires from <= k < |h| && h[k].Failed?
    ensures from <= m <= k && h[m].Failed? && forall n :: from <= n < m ==> !h[n].Failed?
    decreases k - from
  {
    if h[from].Failed? { m := from; } else { m := FirstFailure(h, from + 1, k); }
  }

  /** The first failure after a call that an open breaker granted opens it again. */
  lemma ProbeFails(l: Limits, h: seq<Event>, i: nat, m: nat)
    requires Conforms(l, h) && i < m < |h| && h[i].Allowed? && h[m].Failed? && Tripped(h[..i])
    requires forall n :: i < n < m ==> !h[n].Failed? && !h[n].Succeeded?
    ensures Opens(h[m])
  {
    var o := Opening(h[..i]).value;
    OpeningIsLast(h[..i]);
    OpeningIsLast(h[..m]);
    assert forall n :: o < n < i ==> h[n] == h[..i][n];
    assert h[o] == h[..i][o];
    StillTripped(h, o, m);
    assert Opening(h[..m]).value == o;
    assert h[..m][i].Allowed?;
    ConformsAt(l, h, m);
  }

  // ----- The answers, from the history alone

  /** Event `o` opened the breaker, and up to `n` nothing has closed it or opened it again. */
  predicate OpenSince(h: seq<Event>, o: nat, n: nat) {
    o < n <= |h| && Opens(h[o]) && forall k :: o < k < n ==> !h[k].Succeeded? && !Opens(h[k])
  }

  lemma {:induction false} OpenSinceIsOpening(h: seq<Event>, o: nat, n: nat)
    requires n <= |h|
    ensures OpenSince(h, o, n) <==> Opening(h[..n]) == Some(o)
  {
    if n > 0 {
      assert Front(h[..n]) == h[..n - 1] && Last(h[..n]) == h[n - 1];
      OpenSinceIsOpening(h, o, n - 1);
    }
  }

  lemma ProbingSince(h: seq<Event>, o: nat, n: nat)
    requires OpenSince(h, o, n)
    ensures Probing(h[..n]) <==> exists k :: o < k < n && h[k].Allowed?
  {
    OpenSinceIsOpening(h, o, n);
    if k :| o < k < n && h[k].Allowed? { assert h[..n][k].Allowed?; }
  }

  /**
    A call is denied exactly if the breaker has opened less than a cooldown ago, and no call was let through and
    nothing succeeded since.
  */
  lemma DenialsExactly(l: Limits, h: seq<Event>, n: nat)
    requires Conforms(l, h) && n < |h| && (h[n].Allowed? || h[n].Denied?)
    ensures h[n].Denied? <==>
            exists o: nat :: OpenSince(h, o, n) && (forall k :: o < k < n ==> !h[k].Allowed?) && h[n].at < h[o].at + l.cooldown
  {
    ConformsAt(l, h, n);
    if Tripped(h[..n]) {
      var o := Opening(h[..n]).value;
      OpenSinceIsOpening(h, o, n);
      ProbingSince(h, o, n);
    }
    if o: nat :| OpenSince(h, o, n) && (forall k :: o < k < n ==> !h[k].Allowed?) && h[n].at < h[o].at + l.cooldown {
      OpenSinceIsOpening(h, o, n);
      ProbingSince(h, o, n);
    }
  }

  /** The failures before event `n` and after the last success that are later than `cutoff`. */
  function FailedAfter(h: seq<Event>, n: nat, cutoff: int): set<nat>
    requires n <= |h|
  {
    set i: nat | i < n && h[i].Failed? && h[i].at > cutoff && forall k :: i < k < n ==> !h[k].Succeeded?
  }

  lemma FailedAfterStep(h: seq<Event>, n: nat, cutoff: int)
    requires n < |h|
    ensures |FailedAfter(h, n + 1, cutoff)| ==
            if h[n].Succeeded? then 0
            else |FailedAfter(h, n, cutoff)| + if h[n].Failed? && h[n].at > cutoff then 1 else 0
  {
    if h[n].Succeeded? {
      assert FailedAfter(h, n + 1, cutoff) == {};
    } else {
      var now: set<nat> := if h[n].Failed? && h[n].at > cutoff then {n} else {};
      assert FailedAfter(h, n + 1, cutoff) == FailedAfter(h, n, cutoff) + now;
    }
  }

  lemma NewerStep(before: seq<Event>, e: Event, cutoff: int)
    ensures |Newer(Failures(before + [e]), cutoff)| ==
            if e.Succeeded? then 0 else |Newer(Failures(before), cutoff)| + if e.Failed? && e.at > cutoff then 1 else 0
  {
    Snoc(before, e);
    if e.Failed? { NewerSnoc(Failures(before), e.at, cutoff); }
  }

  lemma {:induction false} NewerCounts(h: seq<Event>, n: nat, cutoff: int)
    requires n <= |h|
    ensures |Newer(Failures(h[..n]), cutoff)| == |FailedAfter(h, n, cutoff)|
  {
    if n == 0 {
      assert FailedAfter(h, 0, cutoff) == {};
    } else {
      NewerCounts(h, n - 1, cutoff);
      FailedAfterStep(h, n - 1, cutoff);
      NewerStep(h[..n - 1], h[n - 1], cutoff);
      assert h[..n] == h[..n - 1] + [h[n - 1]];
    }
  }

  lemma NewerSnoc(ts: seq<int>, t: int, cutoff: int)
    ensures Newer(ts + [t], cutoff) == Newer(ts, cutoff) + if t > cutoff then [t] else []
  {
    assert Front(ts + [t]) == ts;
  }

  /**
    A failure opens the breaker exactly if the breaker was open and had let a call through, or if with it the
    failures since the last success that are inside the window reach the threshold.
  */
  lemma OpeningsExactly(l: Limits, h: seq<Event>, n: nat)
    requires Conforms(l, h) && n < |h| && h[n].Failed?
    ensures h[n].trips <==>
            || (exists o: nat, k :: OpenSince(h, o, n) && o < k < n && h[k].Allowed?)
            || |FailedAfter(h, n, h[n].at - l.window)| + 1 >= l.threshold
  {
    ConformsAt(l, h, n);
    RecentCounts(h[..n], h[n], l.window);
    NewerCounts(h, n, h[n].at - l.window);
    if Tripped(h[..n]) {
      var o := Opening(h[..n]).value;
      OpenSinceIsOpening(h, o, n);
      ProbingSince(h, o, n);
    }
    if o: nat, k :| OpenSince(h, o, n) && o < k < n && h[k].Allowed? {
      OpenSinceIsOpening(h, o, n);
      ProbingSince(h, o, n);
    }
  }

  lemma RecentCounts(before: seq<Event>, e: Event, window: int)
    requires e.Failed?
    ensures |Recent(before + [e], window)| == |Newer(Failures(before), e.at - window)| + 1
  {
    Snoc(before, e);
    assert Front(Failures(before) + [e.at]) == Failures(before);
  }
}
