/**
  The services (internal/application) as the imperative code they are. Each call is
  preceded by any steps of the other processes, and its precondition asks for the program
  counter that the protocol has there. The contracts say which actions of the protocol a
  service has taken when it returns (`World.own`), what its giving up means, most often
  that a call has failed (`World.errors`), and, where nothing else runs, which state it
  computes. What is proved of all reachable states holds whenever and however they run.
*/
module Services {
  import opened Wrappers
  import opened Notification
  import opened Protocol
  import opened Frames
  import opened Dispatches
  import opened Runtime
  import Answers
  import Attempts
  import Backoff
  import Draining
  import Promotions
  import Replays

  // ----- internal/application/dispatch

  class DispatchService {
    const world: World
    const providers: set<Channel>
    const breakers: map<Channel, CB.Breaker>
    const retryBase: int
    const retryMax: int

    /** Every channel that has a provider has a breaker, and no two have the same. */
    predicate Separate() {
      && breakers.Keys == providers
      && forall c, e :: c in breakers && e in breakers && breakers[c] == breakers[e] ==> c == e
    }

    /** Breakers are called by other workers too, but under their mutex and the same clock. */
    ghost predicate InStep()
      reads world, breakers.Values
    {
      forall b :: b in breakers.Values ==> Usable(b)
    }

    ghost predicate Ready()
      reads this, world, world.store, breakers.Values
    {
      world.Valid() && providers <= breakers.Keys && InStep()
    }

    /** The settings for which the longest backoff fits. */
    predicate Sized() {
      && retryBase >= 2 && retryMax >= 2 && retryMax + retryMax / 2 <= Backoff.MAX64
      && (world.cfg.maxAttempts >= 2 ==> retryBase * Backoff.Pow2(world.cfg.maxAttempts - 2) <= Backoff.MAX64)
    }

    constructor (world: World, providers: set<Channel>, limits: CB.Limits, retryBase: int, retryMax: int)
      requires world.Valid()
      ensures this.world == world && this.providers == providers
      ensures this.retryBase == retryBase && this.retryMax == retryMax
      ensures Ready() && Separate() && forall c :: c in breakers ==>
                fresh(breakers[c]) && breakers[c].limits == limits && breakers[c].history == []
    {
      var made: map<Channel, CB.Breaker> := map[];
      var rest := providers;
      while rest != {}
        invariant rest !! made.Keys && rest + made.Keys == providers
        invariant forall c :: c in made ==>
                    fresh(made[c]) && made[c].Valid() && made[c].limits == limits && made[c].history == []
        invariant forall c, e :: c in made && e in made && made[c] == made[e] ==> c == e
        decreases rest
      {
        var c :| c in rest;
        var breaker := new CB.Breaker(limits);
        made := made[c := breaker];
        rest := rest - {c};
      }
      this.world, this.providers, this.breakers := world, providers, made;
      this.retryBase, this.retryMax := retryBase, retryMax;
    }

    /** The breaker of the channel, if there is one. */
    function BreakersFor(channel: Channel): set<CB.Breaker> {
      if channel in breakers then {breakers[channel]} else {}
    }

    /** Different channels have nothing in common. */
    lemma BreakersDiffer(channel: Channel, other: Channel)
      requires Separate() && other in breakers && other != channel
      ensures breakers[other] in breakers.Values - BreakersFor(channel)
    {
    }

    ghost function HistoryOf(channel: Channel): seq<CB.Event>
      reads BreakersFor(channel)
    {
      if channel in breakers then breakers[channel].history else []
    }

    /**
      Processes one message of a delivery. The actions taken are those of its course: the provider is called exactly
      if there is one for the delivery's channel and its breaker allows it, and the breaker is told of each call
      what became of it. The worker is left at the reply that the protocol has for them: an acknowledgement exactly
      if the result is no error. An error means that a call has failed, that the delivery could not be started, or
      that the breaker was open; with settings that fit nothing panics. Where nothing else runs, the dispatch
      computes `DispatchOnce`.
    */
    method Dispatch(w: nat, id: nat)
      returns (end: Ending, ghost course: Course, ghost channel: Channel, ghost calls: seq<CB.Event>, ghost acts: seq<Action>)
      requires Ready() && Handles(world.st, w, id)
      modifies world, world.store, breakers.Values
      ensures Ready() && world.Went()
      ensures Worker(world.st, w) == Replying(old(Worker(world.st, w)).copy, end == Nil)
      ensures Sized() ==> end != Panic
      ensures world.own == old(world.own) + Opening(w, course) + acts && Closes(acts, w, course, end)
      ensures course.Unread? || (id in world.st.db.deliveries && world.st.db.deliveries[id].key.channel == channel)
      ensures Warranted(course, channel in providers, calls) && CB.Heard(old(HistoryOf(channel)), HistoryOf(channel), calls)
      ensures forall b :: b in breakers.Values - BreakersFor(channel) ==> b.history == old(b.history)
      ensures end == Error ==> world.errors > old(world.errors) || course.Unread? || course.Unallowed?
      ensures world.alone ==> world.st == DispatchOnce(world.cfg, old(world.st), w, GateOf(course), ResultOf(course))
    {
      channel, calls, acts := Email, [], [];
      var found, a := world.FindByID(w, id);
      StillReady();
      if found.None? {
        return Error, Unread(a.wop.ok), channel, calls, acts;
      }
      label Found:
      channel := found.value.key.channel;
      end, course, calls, acts := Handle(w, found.value);
      FindFirst(old(world.own), w, course, acts);
      KeyStays(world.cfg, old@Found(world.st), world.st, id);
    }

    /** The part of Dispatch that follows the look at the delivery. */
    method Handle(w: nat, row: Row)
      returns (end: Ending, ghost course: Course, ghost calls: seq<CB.Event>, ghost acts: seq<Action>)
      requires Ready()
      requires var pc := Worker(world.st, w); !pc.Free? && pc == PcAfterFind(pc.copy, Some(row), world.st.now)
      modifies world, world.store, BreakersFor(row.key.channel)
      ensures Ready() && world.Went()
      ensures Worker(world.st, w) == Replying(old(Worker(world.st, w)).copy, end == Nil)
      ensures Sized() ==> end != Panic
      ensures world.own == old(world.own) + ClaimActs(w, course) + acts && Closes(acts, w, course, end)
      ensures (course.Unread? ==> course.ok) && Warranted(course, row.key.channel in providers, calls)
      ensures CB.Heard(old(HistoryOf(row.key.channel)), HistoryOf(row.key.channel), calls)
      ensures end == Error ==> world.errors > old(world.errors) || course.Unread? || course.Unallowed?
      ensures world.alone ==>
                world.st == if old(Worker(world.st, w)).Claiming? then ClaimOnce(world.cfg, old(world.st), w, GateOf(course), ResultOf(course))
                            else old(world.st)
    {
      var d := new Delivery(row);
      if d.status == Succeeded || d.status == Dlq {
        return Nil, Unread(true), [], [];
      }

      var now := world.Now();
      var prev := d.status;
      var started := d.StartProcessing(now);
      if !started {
        return Error, Unread(true), [], [];
      }
      end, course, calls, acts := ClaimAndAttempt(w, d, prev, now);
    }

    /** The part of Dispatch that follows the check of the status. */
    method ClaimAndAttempt(w: nat, d: Delivery, prev: Status, now: int)
      returns (end: Ending, ghost course: Course, ghost calls: seq<CB.Event>, ghost acts: seq<Action>)
      requires Ready() && d.updatedAt == now
      requires var pc := Worker(world.st, w); pc.Claiming? && pc.d == d.View() && pc.prev == prev
      modifies world, world.store, BreakersFor(d.key.channel), d
      ensures Ready() && world.Went()
      ensures Worker(world.st, w) == Replying(old(Worker(world.st, w)).copy, end == Nil)
      ensures Sized() ==> end != Panic
      ensures world.own == old(world.own) + ClaimActs(w, course) + acts && !course.Unread? && Closes(acts, w, course, end)
      ensures Warranted(course, d.key.channel in providers, calls)
      ensures CB.Heard(old(HistoryOf(d.key.channel)), HistoryOf(d.key.channel), calls)
      ensures end == Error ==> world.errors > old(world.errors) || course.Unallowed?
      ensures world.alone ==> world.st == ClaimOnce(world.cfg, old(world.st), w, GateOf(course), ResultOf(course))
    {
      calls, acts := [], [];
      var ok, updated, a := world.UpdateIfStatus(w, d.View(), prev);
      StillReady();
      course := Unclaimed(a.wop.write);
      if !ok {
        return Error, course, calls, acts;
      }
      if !updated {
        return Nil, course, calls, acts;
      }

      end, course, calls, acts := Attempt(w, d, now);
      ClaimFirst(old(world.own), w, course, acts);
    }

    /** The part of Dispatch that runs while the worker owns the delivery. */
    method Attempt(w: nat, d: Delivery, claimed: int)
      returns (end: Ending, ghost course: Course, ghost calls: seq<CB.Event>, ghost acts: seq<Action>)
      requires Ready() && Owned(w, d) && d.updatedAt == claimed
      modifies world, world.store, BreakersFor(d.key.channel), d
      ensures Ready() && world.Went()
      ensures Worker(world.st, w) == Replying(old(Worker(world.st, w)).copy, end == Nil)
      ensures Sized() ==> end != Panic
      ensures world.own == old(world.own) + GateActs(w, course) + acts && !course.Unread? && !course.Unclaimed?
      ensures Closes(acts, w, course, end)
      ensures Warranted(course, d.key.channel in providers, calls)
      ensures CB.Heard(old(HistoryOf(d.key.channel)), HistoryOf(d.key.channel), calls)
      ensures end == Error ==> world.errors > old(world.errors) || course.Unallowed?
      ensures world.alone ==> world.st == AttemptOnce(world.cfg, old(world.st), w, GateOf(course), ResultOf(course))
    {
      if d.key.channel !in providers {
        var ok;
        ok, acts := FailWithoutProvider(w, d, claimed);
        StillReady();
        return if ok then Nil else Error, Unprovided, [], acts;
      }
      end, course, calls, acts := AttemptGuarded(w, d, claimed);
    }

    /** The part of it that follows the choice of the provider. */
    method AttemptGuarded(w: nat, d: Delivery, claimed: int)
      returns (end: Ending, ghost course: Course, ghost calls: seq<CB.Event>, ghost acts: seq<Action>)
      requires Ready() && Owned(w, d) && d.updatedAt == claimed && d.key.channel in providers
      modifies world, world.store, BreakersFor(d.key.channel), d
      ensures Ready() && world.Went()
      ensures Worker(world.st, w) == Replying(old(Worker(world.st, w)).copy, end == Nil)
      ensures Sized() ==> end != Panic
      ensures world.own == old(world.own) + GateActs(w, course) + acts && (course.Unallowed? || course.Called?)
      ensures Closes(acts, w, course, end) && Warranted(course, true, calls)
      ensures CB.Heard(old(HistoryOf(d.key.channel)), HistoryOf(d.key.channel), calls)
      ensures end == Error ==> world.errors > old(world.errors) || course.Unallowed?
      ensures world.alone ==> world.st == AttemptOnce(world.cfg, old(world.st), w, GateOf(course), ResultOf(course))
    {
      var attempt := Notification.Attempt(d.retryCount + 1, claimed, None, "", false);
      ghost var before := HistoryOf(d.key.channel);
      var allowed, e := Allow(d.key.channel);
      ghost var asked := HistoryOf(d.key.channel);
      if allowed {
        ghost var result, told;
        end, acts, result, told := CallProvider(w, d, attempt);
        course, calls := Called(result), [e, told];
        CB.HeardTwice(before, asked, HistoryOf(d.key.channel), e, told);
      } else {
        label Denied:
        end, acts := FailOnOpenCircuit(w, d, attempt);
        course, calls := Unallowed, [e];
        StillReady@Denied();
      }
    }

    /** The worker has claimed the delivery, which is as it was stored by the claim. */
    ghost predicate Owned(w: nat, d: Delivery)
      reads world, d
    {
      var pc := Worker(world.st, w);
      pc.Owning? && pc.stage == Gating && pc.d == d.View()
    }

    method FailWithoutProvider(w: nat, d: Delivery, claimed: int) returns (ok: bool, ghost acts: seq<Action>)
      requires world.Valid() && Owned(w, d) && d.updatedAt == claimed
      modifies world, world.store, d
      ensures world.Went()
      ensures Worker(world.st, w) == Replying(old(Worker(world.st, w)).copy, ok)
      ensures world.own == old(world.own) + [ByWorker(w, Gate(NoProvider))] + acts && Tried(acts, DlqPlan(w, false), ok)
      ensures !ok ==> world.errors > old(world.errors)
      ensures world.alone ==> world.st == AttemptOnce(world.cfg, old(world.st), w, NoProvider, Delivered)
    {
      world.Decide(w, NoProvider);
      ok, acts := MoveToDlq(w, d, claimed, "no provider for channel", None);
    }

    /** An open circuit counts as a transient failure of the attempt. */
    method FailOnOpenCircuit(w: nat, d: Delivery, attempt: Notification.Attempt) returns (end: Ending, ghost acts: seq<Action>)
      requires world.Valid() && Owned(w, d) && attempt == NewAttempt(d.View())
      modifies world, world.store, d
      ensures world.Went()
      ensures Worker(world.st, w) == Replying(old(Worker(world.st, w)).copy, end == Nil)
      ensures Sized() ==> end != Panic
      ensures world.own == old(world.own) + GateActs(w, Unallowed) + acts && Closes(acts, w, Unallowed, end)
      ensures world.alone ==> world.st == AttemptOnce(world.cfg, old(world.st), w, Tripped, Delivered)
    {
      world.Decide(w, Tripped);
      end, acts := HandleFailure(w, d, attempt, false, "transient error");
    }

    /** The part of Dispatch that the breaker guards. */
    method CallProvider(w: nat, d: Delivery, attempt: Notification.Attempt)
      returns (end: Ending, ghost acts: seq<Action>, ghost result: SendResult, ghost told: CB.Event)
      requires Ready() && Owned(w, d) && attempt == NewAttempt(d.View()) && d.key.channel in providers
      modifies world, world.store, BreakersFor(d.key.channel), d
      ensures Ready() && world.Went()
      ensures Worker(world.st, w) == Replying(old(Worker(world.st, w)).copy, end == Nil)
      ensures Sized() ==> end != Panic
      ensures CB.Heard(old(HistoryOf(d.key.channel)), HistoryOf(d.key.channel), [told])
      ensures world.own == old(world.own) + GateActs(w, Called(result)) + acts && Closes(acts, w, Called(result), end)
      ensures if result.Delivered? then told.Succeeded? else told.Failed?
      ensures end == Error ==> world.errors > old(world.errors)
      ensures world.alone ==> world.st == AttemptOnce(world.cfg, old(world.st), w, Cleared, result)
    {
      var sent;
      sent, told := SendAndRecord(w, d);
      result := sent;
      label Recorded:
      end, acts := Conclude(w, d, attempt, sent);
      StillReady@Recorded();
    }

    /** The provider is called, and the breaker learns the result. */
    method SendAndRecord(w: nat, d: Delivery) returns (result: SendResult, ghost told: CB.Event)
      requires Ready() && Owned(w, d) && d.key.channel in providers
      modifies world, world.store, BreakersFor(d.key.channel)
      ensures Ready() && world.Went()
      ensures var copy := old(Worker(world.st, w)).copy;
              Worker(world.st, w) == PcAfterSend(world.cfg, copy, d.View(), NewAttempt(d.View()), result, world.st.now)
      ensures CB.Heard(old(HistoryOf(d.key.channel)), HistoryOf(d.key.channel), [told])
      ensures if result.Delivered? then told.Succeeded? else told.Failed?
      ensures world.own == old(world.own) + GateActs(w, Called(result))
      ensures !result.Delivered? ==> world.errors > old(world.errors)
      ensures world.alone ==> world.st == SentOnce(world.cfg, old(world.st), w, result)
    {
      result := SendCleared(w, d);
      StillReady();
      told := RecordResult(d.key.channel, result.Delivered?);
    }

    method SendCleared(w: nat, d: Delivery) returns (result: SendResult)
      requires world.Valid() && Owned(w, d)
      modifies world, world.store
      ensures world.Went()
      ensures var copy := old(Worker(world.st, w)).copy;
              Worker(world.st, w) == PcAfterSend(world.cfg, copy, d.View(), NewAttempt(d.View()), result, world.st.now)
      ensures world.own == old(world.own) + GateActs(w, Called(result))
      ensures !result.Delivered? ==> world.errors > old(world.errors)
      ensures world.alone ==> world.st == SentOnce(world.cfg, old(world.st), w, result)
    {
      world.Decide(w, Cleared);
      result := world.Send(w, d.View());
    }

    /** The part of Dispatch that follows the call of the provider. */
    method Conclude(w: nat, d: Delivery, attempt: Notification.Attempt, result: SendResult)
      returns (end: Ending, ghost acts: seq<Action>)
      requires world.Valid()
      requires var pc := Worker(world.st, w);
               !pc.Free? && pc == PcAfterSend(world.cfg, pc.copy, d.View(), attempt, result, world.st.now)
      modifies world, world.store, d
      ensures world.Went()
      ensures Worker(world.st, w) == Replying(old(Worker(world.st, w)).copy, end == Nil)
      ensures Sized() ==> end != Panic
      ensures world.own == old(world.own) + acts
      ensures Closes(acts, w, Called(result), end)
      ensures result.Delivered? && end == Error ==> world.errors > old(world.errors)
      ensures world.alone ==> world.st == Concluded(world.cfg, old(world.st), w)
    {
      if result.Delivered? {
        var ok;
        ok, acts := HandleSuccess(w, d, attempt);
        return if ok then Nil else Error, acts;
      }
      end, acts := HandleFailure(w, d, attempt, result.PermanentError?, result.msg);
    }

    twostate lemma StillReady()
      requires old(Ready()) && world.Went() && unchanged(breakers.Values)
      ensures Ready()
    {
    }

    /** The part of Dispatch that follows a successful call of the provider. */
    method HandleSuccess(w: nat, d: Delivery, attempt: Notification.Attempt) returns (ok: bool, ghost acts: seq<Action>)
      requires world.Valid()
      requires var pc := Worker(world.st, w);
               pc.Owning? && pc == Owning(pc.copy, MarkedSucceeded(d.View(), world.st.now), d.View(), Some(attempt), SavingSuccess)
      modifies world, world.store, d
      ensures world.Went()
      ensures Worker(world.st, w) == Replying(old(Worker(world.st, w)).copy, ok)
      ensures world.own == old(world.own) + acts && Tried(acts, SuccessPlan(w), ok)
      ensures !ok ==> world.errors > old(world.errors)
      ensures world.alone ==> ok && world.st == Concluded(world.cfg, old(world.st), w)
    {
      var now := world.Now();
      d.MarkSucceeded(attempt, now);
      ghost var a, rest;
      ok, a := world.Update(w, d.View());
      acts := [a];
      if ok {
        ok, rest := RecordSuccess(w, d.id, attempt);
        acts := [a] + rest;
        Joined(old(world.own), [a], rest);
        TriedAfterSave(a, rest, w, ok);
      }
    }

    /** The part of it that follows the final write. */
    method RecordSuccess(w: nat, id: nat, attempt: Notification.Attempt) returns (ok: bool, ghost acts: seq<Action>)
      requires world.Valid()
      requires var pc := Worker(world.st, w);
               pc.Closing? && pc.rest == RecordingSuccess && pc.d.id == id && pc.attempt == Some(attempt)
      modifies world, world.store
      ensures world.Went()
      ensures Worker(world.st, w) == Replying(old(Worker(world.st, w)).copy, ok)
      ensures world.own == old(world.own) + acts && Tried(acts, SuccessPlan(w)[1..], ok)
      ensures !ok ==> world.errors > old(world.errors)
      ensures world.alone ==> ok && world.st == Concluded(world.cfg, old(world.st), w)
    {
      ghost var a, b;
      ok, a := world.RecordAttempt(w, id, attempt);
      acts := [a];
      if ok {
        ok, b := world.AppendAudit(w);
        acts := [a, b];
      }
    }

    /** Asks the breaker of the channel. */
    method Allow(channel: Channel) returns (ok: bool, ghost e: CB.Event)
      requires InStep() && channel in breakers
      modifies BreakersFor(channel)
      ensures InStep() && CB.Heard(old(HistoryOf(channel)), HistoryOf(channel), [e]) && if ok then e.Allowed? else e.Denied?
    {
      var breaker := breakers[channel];
      ghost var before := breaker.history;
      OtherCalls(breaker);
      ghost var mid := breaker.history;
      var now := world.Now();
      ok := breaker.Allow(now);
      e := if ok then CB.Allowed(now) else CB.Denied(now);
      CB.HeardOnce(before, mid, e);
    }

    method RecordResult(channel: Channel, success: bool) returns (ghost e: CB.Event)
      requires InStep() && channel in breakers
      modifies BreakersFor(channel)
      ensures InStep() && CB.Heard(old(HistoryOf(channel)), HistoryOf(channel), [e]) && if success then e.Succeeded? else e.Failed?
    {
      var breaker := breakers[channel];
      ghost var before := breaker.history;
      OtherCalls(breaker);
      ghost var mid := breaker.history;
      e := RecordNow(breaker, success);
      CB.HeardOnce(before, mid, e);
    }

    /** What InStep says of one breaker. */
    ghost predicate Usable(breaker: CB.Breaker)
      reads world, breaker
    {
      breaker.Valid() && CB.NoneAfter(breaker.history, world.st.now)
    }

    method RecordNow(breaker: CB.Breaker, success: bool) returns (ghost e: CB.Event)
      requires Usable(breaker)
      modifies breaker
      ensures Usable(breaker) && breaker.history == old(breaker.history) + [e] && if success then e.Succeeded? else e.Failed?
    {
      var now := world.Now();
      if success {
        breaker.RecordSuccess(now);
        e := CB.Succeeded(now);
      } else {
        ghost var trips := breaker.RecordFailure(now);
        e := CB.Failed(now, trips);
      }
    }

    /** Other workers call the breaker, any number of times and in any order. */
    method OtherCalls(breaker: CB.Breaker)
      requires Usable(breaker)
      modifies breaker
      ensures Usable(breaker) && old(breaker.history) <= breaker.history
    {
      var calls: seq<nat> := *;
      for i := 0 to |calls|
        invariant Usable(breaker) && old(breaker.history) <= breaker.history
      {
        if calls[i] == 0 {
          var ok := breaker.Allow(world.st.now);
        } else {
          ghost var e := RecordNow(breaker, calls[i] == 1);
        }
      }
    }

    /**
      Stores the attempt and the delivery, dead or for a retry; a retry is an error, so that the message comes
      again. Which of the two it is follows from the precondition, as the protocol decides it.
    */
    method HandleFailure(w: nat, d: Delivery, attempt: Notification.Attempt, permanent: bool, msg: string)
      returns (end: Ending, ghost acts: seq<Action>)
      requires world.Valid()
      requires var pc := Worker(world.st, w);
               !pc.Free? && pc == AfterFailure(world.cfg, pc.copy, d.View(), attempt, permanent, msg, world.st.now)
      modifies world, world.store, d
      ensures world.Went()
      ensures Worker(world.st, w) == Replying(old(Worker(world.st, w)).copy, end == Nil)
      ensures Sized() ==> end != Panic
      ensures world.own == old(world.own) + acts
      ensures if permanent || old(d.retryCount) + 1 >= world.cfg.maxAttempts then Concludes(acts, DlqPlan(w, true), end)
              else end != Nil && (acts == RetryPlan(w) ==>
                (end == Panic <==> Backoff.Clamped(old(d.retryCount) + 1, retryBase, retryMax) < 2))
      ensures FailureTried(acts, w, end)
      ensures world.alone ==> world.st == Concluded(world.cfg, old(world.st), w)
    {
      var now := world.Now();
      if permanent || d.retryCount + 1 >= world.cfg.maxAttempts {
        var ok;
        ok, acts := MoveToDlq(w, d, now, msg, Some(attempt));
        return if ok then Nil else Error, acts;
      }
      end, acts := StoreRetry(w, d, attempt, msg, now);
    }

    /** The part of handleFailure that stores a retry. */
    method StoreRetry(w: nat, d: Delivery, attempt: Notification.Attempt, msg: string, now: int)
      returns (end: Ending, ghost acts: seq<Action>)
      requires world.Valid()
      requires var pc := Worker(world.st, w);
               pc.Owning? && pc == Owning(pc.copy, MarkedRetrying(d.View(), msg, now), d.View(),
                                          Some(attempt.(error := msg, finishedAt := Some(now))), SavingRetry)
      modifies world, world.store, d
      ensures world.Went()
      ensures Worker(world.st, w) == Replying(old(Worker(world.st, w)).copy, false)
      ensures end != Nil && (Sized() ==> end != Panic)
      ensures world.own == old(world.own) + acts
      ensures (end == Error && Tried(acts, RetryPlan(w), false)) || Tried(acts, RetryPlan(w), true)
      ensures acts == RetryPlan(w) ==> (end == Panic <==> Backoff.Clamped(old(d.retryCount) + 1, retryBase, retryMax) < 2)
      ensures world.alone ==> world.st == Concluded(world.cfg, old(world.st), w)
    {
      var failed := attempt.(error := msg, finishedAt := Some(now));
      d.MarkRetrying(failed, msg, now);
      var ok;
      ghost var a, b;
      ok, a := world.Update(w, d.View());
      acts := [a];
      if !ok {
        return Error, acts;
      }
      end, b := RecordRetry(w, d.id, d.retryCount, failed);
      acts := [a, b];
    }

    /** The part of it that follows the final write. The delay is only computed, which may panic. */
    method RecordRetry(w: nat, id: nat, retryCount: int, failed: Notification.Attempt) returns (end: Ending, ghost a: Action)
      requires world.Valid()
      requires var pc := Worker(world.st, w);
               && pc.Closing? && pc.rest == RecordingRetry && pc.d.id == id && pc.d.retryCount == retryCount
               && pc.attempt == Some(failed)
      modifies world, world.store
      ensures world.Went()
      ensures Worker(world.st, w) == Replying(old(Worker(world.st, w)).copy, false)
      ensures end != Nil && (Sized() ==> end != Panic)
      ensures world.own == old(world.own) + [a] && a.ByWorker? && a.w == w && a.wop.Record?
      ensures end == Panic <==> a.wop.write.Applied? && Backoff.Clamped(retryCount, retryBase, retryMax) < 2
      ensures world.alone ==> world.st == Concluded(world.cfg, old(world.st), w)
    {
      var draw: nat := *;
      if Sized() { BackoffReturns(w, retryCount, draw); }
      Backoff.PanicsExactly(retryCount, retryBase, retryMax, draw);
      var ok;
      ok, a := world.RecordAttempt(w, id, failed);
      if !ok {
        return Error, a;
      }
      var delay := Backoff.Delay(retryCount, retryBase, retryMax, draw);
      return if delay.Some? then Error else Panic, a;
    }

    lemma BackoffReturns(w: nat, n: int, draw: nat)
      requires world.Valid() && Sized()
      requires Worker(world.st, w).Closing? && Worker(world.st, w).rest == RecordingRetry && Worker(world.st, w).d.retryCount == n
      ensures Backoff.Delay(n, retryBase, retryMax, draw).Some?
    {
      ReachesIsReachable(world.cfg, world.st);
      Attempts.BackoffIsInRange(world.cfg, world.st, w, retryBase, retryMax, draw);
    }

    method MoveToDlq(w: nat, d: Delivery, now: int, msg: string, attempt: Option<Notification.Attempt>)
      returns (ok: bool, ghost acts: seq<Action>)
      requires world.Valid()
      requires var pc := Worker(world.st, w);
               && !pc.Free?
               && pc == match attempt
                        case None => Owning(pc.copy, MarkedDlq(d.View(), msg, now), d.View(), None, SavingDlq)
                        case Some(a) =>
                          Owning(pc.copy, MarkedDlq(d.View(), msg, now), d.View(),
                                 Some(a.(error := msg, finishedAt := Some(now))), RecordingDlq)
      modifies world, world.store, d
      ensures world.Went()
      ensures Worker(world.st, w) == Replying(old(Worker(world.st, w)).copy, ok)
      ensures world.own == old(world.own) + acts && Tried(acts, DlqPlan(w, attempt.Some?), ok)
      ensures !ok ==> world.errors > old(world.errors)
      ensures world.alone ==> ok && world.st == Concluded(world.cfg, old(world.st), w)
    {
      if attempt.None? {
        d.MarkDlq(None, msg, now);
        ok, acts := StoreDead(w, d);
        return;
      }
      ghost var a, rest;
      var failed := attempt.value.(error := msg, finishedAt := Some(now));
      d.MarkDlq(Some(failed), msg, now);
      ok, a := world.RecordAttempt(w, d.id, failed);
      acts := [a];
      if ok {
        ok, rest := StoreDead(w, d);
        acts := acts + rest;
        Joined(old(world.own), [a], rest);
        TriedAfterRecord(a, rest, w, ok);
      }
    }

    /** The part of moveToDLQ that follows the attempt row. */
    method StoreDead(w: nat, d: Delivery) returns (ok: bool, ghost acts: seq<Action>)
      requires world.Valid()
      requires var pc := Worker(world.st, w); pc.Owning? && pc.stage == SavingDlq && pc.d == d.View()
      modifies world, world.store
      ensures world.Went()
      ensures Worker(world.st, w) == Replying(old(Worker(world.st, w)).copy, ok)
      ensures world.own == old(world.own) + acts && Tried(acts, DlqPlan(w, false), ok)
      ensures !ok ==> world.errors > old(world.errors)
      ensures world.alone ==> ok && world.st == Concluded(world.cfg, old(world.st), w)
    {
      ghost var a, b, c;
      ok, a := world.Update(w, d.View());
      acts := [a];
      if !ok {
        return;
      }
      ok, b, c := AnnounceDead(w, d);
      acts := [a, b, c];
    }

    /** The part that follows the final write. */
    method AnnounceDead(w: nat, d: Delivery) returns (ok: bool, ghost a: Action, ghost b: Action)
      requires world.Valid()
      requires var pc := Worker(world.st, w); pc.Closing? && pc.rest == PublishingDlq && pc.d == d.View()
      modifies world, world.store
      ensures world.Went()
      ensures Worker(world.st, w) == Replying(old(Worker(world.st, w)).copy, ok)
      ensures world.own == old(world.own) + [a] + [b]
      ensures Makes(a, ByWorker(w, PublishDead(Applied)), true) && Makes(b, ByWorker(w, Audit(true)), ok)
      ensures !ok ==> world.errors > old(world.errors)
      ensures world.alone ==> ok && world.st == Concluded(world.cfg, old(world.st), w)
    {
      a := world.PublishDead(w, d.id, Routing.DlqSubject(d.key.channel));
      ok, b := world.AppendAudit(w);
    }

    /**
      The subscription of one worker. If the handler returns, the last step is the reply from state `last`,
      which acknowledges the copy if there was no error and hands it back if there was.
    */
    method Consume(w: nat)
      returns (copy: Option<Copy>, end: Ending, ghost last: State, ghost acts: seq<Action>, ghost channel: Channel)
      requires Ready() && Separate() && Worker(world.st, w).Free?
      modifies world, world.store, breakers.Values
      ensures Ready() && world.Went() && Worker(world.st, w).Free?
      ensures Sized() ==> end != Panic
      ensures copy.Some? && end != Panic ==>
                Reaches(world.cfg, old(world.st), last) && Replies(last, world.st, w, copy.value, end == Nil)
      ensures forall c :: c in breakers && c != channel ==> HistoryOf(c) == old(HistoryOf(c))
      ensures if copy.None? then world.own == old(world.own)
              else world.own == old(world.own) + [ByWorker(w, Pull(copy.value))] + acts + [ByWorker(w, if end == Panic then Crash else Reply)]
    {
      end, last, acts, channel := Nil, world.st, [], Email;
      copy := world.Receive(w);
      if copy.Some? {
        label Received:
        end, last, acts, channel := HandleMessage(w, copy.value);
        ReachesOn(world.cfg, old(world.st), old@Received(world.st), last);
      }
    }

    /** The part of it that has a message in hand. */
    method HandleMessage(w: nat, copy: Copy)
      returns (end: Ending, ghost last: State, ghost acts: seq<Action>, ghost channel: Channel)
      requires Ready() && Separate() && Worker(world.st, w) == Pulled(copy) && copy.msg < |world.st.bus.stream|
      modifies world, world.store, breakers.Values
      ensures Ready() && world.Went() && Worker(world.st, w).Free?
      ensures Sized() ==> end != Panic
      ensures Reaches(world.cfg, old(world.st), last) && (end != Panic ==> Replies(last, world.st, w, copy, end == Nil))
      ensures world.own == old(world.own) + acts + [ByWorker(w, if end == Panic then Crash else Reply)]
      ensures forall c :: c in breakers && c != channel ==> HistoryOf(c) == old(HistoryOf(c))
    {
      end, acts, channel := DispatchMessage(w, copy);
      label Dispatched:
      last := Settle(w, copy, end);
      ReachesOn(world.cfg, old(world.st), old@Dispatched(world.st), last);
      StillReady@Dispatched();
    }

    /** The handler itself. */
    method DispatchMessage(w: nat, copy: Copy) returns (end: Ending, ghost acts: seq<Action>, ghost channel: Channel)
      requires Ready() && Separate() && Worker(world.st, w) == Pulled(copy) && copy.msg < |world.st.bus.stream|
      modifies world, world.store, breakers.Values
      ensures Ready() && world.Went() && Worker(world.st, w) == Replying(copy, end == Nil)
      ensures Sized() ==> end != Panic
      ensures world.own == old(world.own) + acts
      ensures forall c :: c in breakers && c != channel ==> HistoryOf(c) == old(HistoryOf(c))
    {
      ghost var course, calls;
      end, course, channel, calls, acts := Dispatch(w, world.st.bus.stream[copy.msg].delivery);
      Joined(old(world.own), Opening(w, course), acts);
      acts := Opening(w, course) + acts;
      forall c | c in breakers && c != channel ensures HistoryOf(c) == old(HistoryOf(c)) {
        BreakersDiffer(channel, c);
      }
    }

    /** The end of the handler: a reply to the broker, or a crash. */
    method Settle(w: nat, copy: Copy, end: Ending) returns (ghost last: State)
      requires world.Valid() && Worker(world.st, w) == Replying(copy, end == Nil)
      modifies world, world.store
      ensures world.Went() && Worker(world.st, w).Free?
      ensures world.own == old(world.own) + [ByWorker(w, if end == Panic then Crash else Reply)]
      ensures Reaches(world.cfg, old(world.st), last) && (end != Panic ==> Replies(last, world.st, w, copy, end == Nil))
    {
      last := world.st;
      if end == Panic {
        world.GoDown(w);
      } else {
        last := world.Answer(w, copy, end == Nil);
      }
    }

    /** The delivery is there, and dead. */
    predicate Replayable(db: Db, id: nat) {
      id in db.deliveries && CanReplay(db.deliveries[id].status)
    }

    /**
      Re-queues a dead delivery and announces it again. Success means that all three steps of a replay were
      taken; an error, that a call failed or that the delivery was found not to be dead, and then nothing was done.
    */
    method ReplayDelivery(r: nat, id: nat) returns (ok: bool)
      requires world.Valid() && Replay(world.st, r).Off?
      requires world.cfg.serialReplays ==> NotReplaying(world.st, id)
      modifies world, world.store
      ensures world.Went() && Replay(world.st, r).Off?
      ensures ok ==> world.own == old(world.own) + [ByReplay(r, Open(id)), ByReplay(r, Protocol.Requeue(Applied)), ByReplay(r, Announce(Applied))]
      ensures ok ==> exists m :: 0 <= m < |world.st.bus.stream| && world.st.bus.stream[m].delivery == id && world.st.bus.stream[m].replay
      ensures !ok ==> world.errors > old(world.errors) || (world.own == old(world.own) && !Replayable(world.st.db, id))
      ensures world.alone ==> (ok <==> Replayable(old(world.st).db, id))
      ensures world.alone ==> world.st == if ok then Replays.ReplayOnce(world.cfg, old(world.st), r, id) else old(world.st)
    {
      var found := world.FindDead(r, id);
      if found.None? {
        return false;
      }
      ok := ReplayFound(r, found.value);
    }

    /** The part of ReplayDelivery that follows the look at the delivery. */
    method ReplayFound(r: nat, row: Row) returns (ok: bool)
      requires world.Valid()
      requires Replay(world.st, r) ==
               if CanReplay(row.status) then Saving(Stamped(row, Queued, world.st.now).(retryCount := 0)) else Off
      modifies world, world.store
      ensures world.Went() && Replay(world.st, r).Off?
      ensures !CanReplay(row.status) ==> !ok && world.st == old(world.st) && world.own == old(world.own)
      ensures ok ==> world.own == old(world.own) + [ByReplay(r, Protocol.Requeue(Applied)), ByReplay(r, Announce(Applied))]
      ensures ok ==> exists m :: 0 <= m < |world.st.bus.stream| && world.st.bus.stream[m].delivery == row.id && world.st.bus.stream[m].replay
      ensures !ok && CanReplay(row.status) ==> world.errors > old(world.errors)
      ensures world.alone && CanReplay(row.status) ==> ok && world.st == Replays.RequeuedOnce(world.cfg, old(world.st), r)
    {
      var d := new Delivery(row);
      var now := world.Now();
      ok := d.Replay(now);
      if !ok {
        return false;
      }
      d.retryCount := 0;
      ok := Requeue(r, d);
    }

    /** The part of ReplayDelivery that follows the check of the status. */
    method Requeue(r: nat, d: Delivery) returns (ok: bool)
      requires world.Valid() && Replay(world.st, r) == Saving(d.View())
      modifies world, world.store
      ensures world.Went() && Replay(world.st, r).Off?
      ensures ok ==> world.own == old(world.own) + [ByReplay(r, Protocol.Requeue(Applied)), ByReplay(r, Announce(Applied))]
      ensures ok ==> exists m :: 0 <= m < |world.st.bus.stream| && world.st.bus.stream[m].delivery == d.id && world.st.bus.stream[m].replay
      ensures !ok ==> world.errors > old(world.errors)
      ensures world.alone ==> ok && world.st == Replays.RequeuedOnce(world.cfg, old(world.st), r)
    {
      ok := world.UpdateReplayed(r, d.View());
      if !ok {
        return false;
      }
      ok := world.PublishReplay(r, d.id, Routing.NotificationSubject(world.cfg.prefix, d.key.channel, d.priority));
      if !ok {
        return false;
      }
      ok := world.AuditReplay();
    }
  }

  // ----- internal/application/ingest

  class IngestService {
    const world: World

    constructor (world: World)
      ensures this.world == world
    {
      this.world := world;
    }

    /** The actions of the protocol's client that lead to this response. */
    predicate Answered(acts: seq<Action>, c: nat, req: Request, response: Option<Response>) {
      var lookup, answer := ByClient(c, Lookup(req)), ByClient(c, Protocol.Answer);
      match response
      case Some(Accepted(_, _, duplicate)) =>
        if duplicate then acts == [lookup, answer] || acts == [lookup, ByClient(c, Commit), ByClient(c, Recheck), answer]
        else acts == [lookup, ByClient(c, Commit), answer]
      case Some(Refused(_, _)) => acts == [lookup, ByClient(c, Commit), ByClient(c, Recheck), answer]
      case None =>
        || acts == [] || acts == [lookup, ByClient(c, Abandon)]
        || acts == [lookup, ByClient(c, Commit), ByClient(c, Abandon)]
    }

    /**
      Accepts one request. The response is the one that the protocol logs for the actions taken, and comes with
      the status that the delivery had at some moment during the call; a key that is taken but expired is
      refused. No response means that a call failed.
    */
    method Ingest(c: nat, req: Request)
      returns (response: Option<Response>, status: Option<Status>, ghost acts: seq<Action>, ghost seen: State)
      requires world.Valid() && Client(world.st, c).Away?
      modifies world, world.store
      ensures world.Went() && Client(world.st, c).Away?
      ensures world.own == old(world.own) + acts && Answered(acts, c, req, response)
      ensures response.Some? ==>
                var sent := world.st.log.responses; sent != [] && sent[|sent| - 1] == response.value && response.value.key == req.key
      ensures Reaches(world.cfg, old(world.st), seen) && Reaches(world.cfg, seen, world.st)
      ensures response.Some? && response.value.Accepted? ==> status.Some? && HasStatus(seen.db, response.value.delivery, status.value)
      ensures response.None? ==> world.errors > old(world.errors)
      ensures world.alone ==>
                response.Some? && world.st == AfterReply(Answers.SoloIngest(world.cfg, old(world.st), c, req), c)
    {
      var ok, existing, id := world.FindByIdempotencyKey(c, req);
      if !ok {
        return None, None, [], world.st;
      }
      if existing.Some? {
        response, status, seen := Tell(c, req.key, existing.value);
        acts := [ByClient(c, Lookup(req)), ByClient(c, Protocol.Answer)];
        return;
      }

      response, status, acts, seen := Create(c, id, req);
      acts := [ByClient(c, Lookup(req))] + acts;
    }

    /** The part of Ingest that follows a lookup without a result. */
    method Create(c: nat, id: nat, req: Request)
      returns (response: Option<Response>, status: Option<Status>, ghost acts: seq<Action>, ghost seen: State)
      requires world.Valid()
      requires var d := NewDelivery(id, req, world.st.now);
               Client(world.st, c) == Committing(d, world.st.now + world.cfg.ttl, ShouldSchedule(d, world.st.now))
      modifies world, world.store
      ensures world.Went() && Client(world.st, c).Away?
      ensures world.own == old(world.own) + acts && Stored(acts, c, response)
      ensures response.Some? ==>
                var sent := world.st.log.responses; sent != [] && sent[|sent| - 1] == response.value && response.value.key == req.key
      ensures Reaches(world.cfg, old(world.st), seen) && Reaches(world.cfg, seen, world.st)
      ensures response.Some? && response.value.Accepted? ==> status.Some? && HasStatus(seen.db, response.value.delivery, status.value)
      ensures response.None? ==> world.errors > old(world.errors)
      ensures world.alone ==> response.Some? && world.st == AfterReply(Answers.SoloStore(world.cfg, old(world.st), c), c)
    {
      var now := world.Now();
      var d := new Delivery(Row(id, req.key, req.priority, req.scheduledAt, now, Pending, 0, "", now));
      var schedule := ShouldSchedule(d.View(), now);
      if !schedule {
        var ok := d.Queue(now);
      }
      response, status, acts, seen := Store(c, d, now + world.cfg.ttl, schedule);
    }

    /** A request whose key is registered is answered with the delivery as it was found. */
    method Tell(c: nat, key: Key, row: Row) returns (response: Option<Response>, status: Option<Status>, ghost seen: State)
      requires world.Valid() && Client(world.st, c) == Answering(Accepted(key, row.id, true)) && HasStatus(world.st.db, row.id, row.status)
      modifies world, world.store
      ensures world.Went() && Client(world.st, c).Away? && world.own == old(world.own) + [ByClient(c, Protocol.Answer)]
      ensures response == Some(Accepted(key, row.id, true)) && status == Some(row.status)
      ensures var sent := world.st.log.responses; sent != [] && sent[|sent| - 1] == response.value
      ensures Reaches(world.cfg, old(world.st), seen) && Reaches(world.cfg, seen, world.st) && HasStatus(seen.db, row.id, row.status)
      ensures world.alone ==> world.st == AfterReply(old(world.st), c)
    {
      seen := world.st;
      response, status := Some(Accepted(key, row.id, true)), Some(row.status);
      world.Respond(c, response.value);
    }

    /** The part of these actions that follows the lookup. */
    predicate Stored(acts: seq<Action>, c: nat, response: Option<Response>) {
      var commit, answer := ByClient(c, Commit), ByClient(c, Protocol.Answer);
      match response
      case Some(Accepted(_, _, false)) => acts == [commit, answer]
      case Some(_) => acts == [commit, ByClient(c, Recheck), answer]
      case None => acts == [ByClient(c, Abandon)] || acts == [commit, ByClient(c, Abandon)]
    }

    /** The part of Ingest that follows the construction of the delivery. */
    method Store(c: nat, d: Delivery, expiresAt: int, schedule: bool)
      returns (response: Option<Response>, status: Option<Status>, ghost acts: seq<Action>, ghost seen: State)
      requires world.Valid() && Client(world.st, c) == Committing(d.View(), expiresAt, schedule)
      modifies world, world.store
      ensures world.Went() && Client(world.st, c).Away?
      ensures world.own == old(world.own) + acts && Stored(acts, c, response)
      ensures response.Some? ==>
                var sent := world.st.log.responses; sent != [] && sent[|sent| - 1] == response.value && response.value.key == d.key
      ensures Reaches(world.cfg, old(world.st), seen) && Reaches(world.cfg, seen, world.st)
      ensures response.Some? && response.value.Accepted? ==> status.Some? && HasStatus(seen.db, response.value.delivery, status.value)
      ensures response.None? ==> world.errors > old(world.errors)
      ensures world.alone ==> response.Some? && world.st == AfterReply(Answers.SoloStore(world.cfg, old(world.st), c), c)
    {
      var subject := Routing.NotificationSubject(world.cfg.prefix, d.key.channel, d.priority);
      var error := world.IngestTransactional(c, d.View(), expiresAt, subject, schedule);
      match error {
        case None =>
          response, status := Some(Accepted(d.key, d.id, false)), Some(d.status);
        case Some(Duplicate) =>
          response, status, seen := Retell(c, d.key);
          acts := [ByClient(c, Commit)] +
                  if response.Some? then [ByClient(c, Recheck), ByClient(c, Protocol.Answer)] else [ByClient(c, Abandon)];
          return;
        case Some(Broken) =>
          return None, None, world.own[|old(world.own)|..], world.st;
      }
      seen := world.st;
      world.Respond(c, response.value);
      acts := [ByClient(c, Commit), ByClient(c, Protocol.Answer)];
    }

    /** The part of Ingest that answers a request whose key was taken in the meantime. */
    method Retell(c: nat, key: Key) returns (response: Option<Response>, status: Option<Status>, ghost seen: State)
      requires world.Valid() && Client(world.st, c) == Rechecking(key)
      modifies world, world.store
      ensures world.Went() && Client(world.st, c).Away?
      ensures world.own == old(world.own) +
                           if response.Some? then [ByClient(c, Recheck), ByClient(c, Protocol.Answer)] else [ByClient(c, Abandon)]
      ensures response.Some? ==>
                var sent := world.st.log.responses; sent != [] && sent[|sent| - 1] == response.value
      ensures response.Some? ==> response.value.key == key && (response.value.Accepted? ==> response.value.duplicate)
      ensures Reaches(world.cfg, old(world.st), seen) && Reaches(world.cfg, seen, world.st)
      ensures response.Some? && response.value.Accepted? ==> status.Some? && HasStatus(seen.db, response.value.delivery, status.value)
      ensures response.None? ==> world.errors > old(world.errors)
      ensures world.alone ==> response.Some? && world.st == AfterReply(AfterRecheck(old(world.st), c), c)
    {
      var ok, existing := world.FindDuplicate(c, key);
      seen := world.st;
      if !ok {
        return None, None, seen;
      }
      if existing.Some? {
        response, status := Some(Accepted(key, existing.value.id, true)), Some(existing.value.status);
      } else {
        var now := world.Now();
        response, status := Some(Refused(key, now)), None;
      }
      world.Respond(c, response.value);
    }
  }

  // ----- internal/application/scheduler

  class SchedulerService {
    const world: World

    constructor (world: World)
      ensures this.world == world
    {
      this.world := world;
    }

    /** The actions of a whole tick of the protocol's scheduler. */
    predicate WholeTick(acts: seq<Action>, k: nat) {
      && |acts| >= 2 && acts[|acts| - 1] == ByScheduler(k, EndTick)
      && TickBegins(acts[..|acts| - 1], k)
    }

    /** The actions of a tick that a failed write has ended, or that could not even fetch. */
    predicate BrokenTick(acts: seq<Action>, k: nat) {
      acts == [] || (|acts| >= 2 && FailedTickWrite(acts[|acts| - 1], k) && TickBegins(acts[..|acts| - 1], k))
    }

    predicate TickBegins(acts: seq<Action>, k: nat) {
      && acts != [] && acts[0].ByScheduler? && acts[0].k == k && acts[0].sop.FetchDue?
      && forall i :: 0 < i < |acts| ==> TickStep(acts[i], k)
    }

    lemma TurnsMakeATick(k: nat, ids: seq<nat>, turns: seq<Action>)
      requires forall i :: 0 <= i < |turns| - 1 ==> TickStep(turns[i], k)
      ensures var acts := [ByScheduler(k, Protocol.FetchDue(ids))] + turns;
              && (turns == [] || TickStep(turns[|turns| - 1], k) ==> WholeTick(acts + [ByScheduler(k, EndTick)], k))
              && (turns != [] && FailedTickWrite(turns[|turns| - 1], k) ==> BrokenTick(acts, k))
    {
      var acts := [ByScheduler(k, Protocol.FetchDue(ids))] + turns;
      assert (acts + [ByScheduler(k, EndTick)])[..|acts|] == acts;
      assert turns != [] ==> acts[..|acts| - 1] == [acts[0]] + turns[..|turns| - 1];
    }

    /**
      Promotes the deliveries that are due: each is stored as queued, put in the outbox and marked processed.
      The result says whether the tick was taken to its end; if not, a call has failed. Where nothing else
      runs, it promotes the rows in `due`, a batch of those that are due (see `Promotions`).
    */
    method ProcessDue(k: nat) returns (ok: bool, ghost due: seq<nat>, ghost acts: seq<Action>)
      requires world.Valid() && Scheduler(world.st, k).Sleeping? && (world.cfg.oneScheduler ==> k == 0)
      modifies world, world.store
      ensures world.Went() && Scheduler(world.st, k).Sleeping?
      ensures world.own == old(world.own) + acts && if ok then WholeTick(acts, k) else BrokenTick(acts, k)
      ensures !ok ==> world.errors > old(world.errors)
      ensures world.alone ==>
                && ok && CanFetchDue(world.cfg, old(world.st), due)
                && world.st.db == Promotions.TickOnce(world.cfg, old(world.st).db, due, old(world.st).now)
    {
      var ids;
      ok, ids := world.FetchDue(k);
      if !ok {
        return false, [], [];
      }
      due := ids;
      var now := world.Now();
      ghost var turns;
      ok, turns := PromoteAll(k, ids, now);
      acts := [ByScheduler(k, Protocol.FetchDue(ids))] + turns;
      TurnsMakeATick(k, ids, turns);
      Joined(old(world.own), [ByScheduler(k, Protocol.FetchDue(ids))], turns);
      if !ok {
        return;
      }
      world.EndTick(k);
      acts := acts + [ByScheduler(k, EndTick)];
    }

    /** The loop; the result is false if it is left. */
    method PromoteAll(k: nat, ids: seq<nat>, now: int) returns (ok: bool, ghost acts: seq<Action>)
      requires world.Valid() && Scheduler(world.st, k) == Scanning(now, ids)
      modifies world, world.store
      ensures world.Went()
      ensures Scheduler(world.st, k) == if ok then Scanning(now, []) else Sleeping
      ensures world.own == old(world.own) + acts && (ok || acts != [])
      ensures forall i :: 0 <= i < |acts| - 1 ==> TickStep(acts[i], k)
      ensures acts != [] ==> if ok then TickStep(acts[|acts| - 1], k) else FailedTickWrite(acts[|acts| - 1], k)
      ensures !ok ==> world.errors > old(world.errors)
      ensures world.alone ==> ok && world.st.db == Promotions.TickOnce(world.cfg, old(world.st).db, ids, now)
    {
      ok, acts := true, [];
      var i := 0;
      while i < |ids|
        invariant ok && i <= |ids| && world.Went()
        invariant Scheduler(world.st, k) == Scanning(now, ids[i..])
        invariant world.own == old(world.own) + acts && forall j :: 0 <= j < |acts| ==> TickStep(acts[j], k)
        invariant world.alone ==>
                    Promotions.TickOnce(world.cfg, world.st.db, ids[i..], now) ==
                    Promotions.TickOnce(world.cfg, old(world.st).db, ids, now)
      {
        ghost var turn;
        ok, turn := Promote(k, ids[i], now);
        Joined(old(world.own), acts, turn);
        acts := acts + turn;
        if !ok {
          return;
        }
        i := i + 1;
      }
    }

    /** One turn of the loop; the result is false if the loop is left. */
    method Promote(k: nat, id: nat, now: int) returns (ok: bool, ghost acts: seq<Action>)
      requires world.Valid() && Scheduler(world.st, k).Scanning? && Scheduler(world.st, k).started == now
      requires Scheduler(world.st, k).todo != [] && Scheduler(world.st, k).todo[0] == id
      modifies world, world.store
      ensures world.Went()
      ensures Scheduler(world.st, k) == if ok then Scanning(now, old(Scheduler(world.st, k)).todo[1..]) else Sleeping
      ensures world.own == old(world.own) + acts && acts != []
      ensures forall i :: 0 <= i < |acts| - 1 ==> TickStep(acts[i], k)
      ensures if ok then TickStep(acts[|acts| - 1], k) else FailedTickWrite(acts[|acts| - 1], k)
      ensures !ok ==> world.errors > old(world.errors)
      ensures world.alone ==> ok && world.st.db == Promotions.RowPromoted(world.cfg, old(world.st).db, id, now)
    {
      var found, a := world.FindDue(k, id);
      acts := [a];
      if found.None? {
        return true, acts;
      }
      var d := new Delivery(found.value);
      var queued := d.Queue(now);
      if !queued {
        return true, acts;
      }
      ghost var rest;
      ok, rest := PromoteQueued(k, d);
      acts := acts + rest;
    }

    /** The part of the turn that follows the check of the status. */
    method PromoteQueued(k: nat, d: Delivery) returns (ok: bool, ghost acts: seq<Action>)
      requires world.Valid() && Scheduler(world.st, k).Promoting? && Scheduler(world.st, k).d == d.View()
      modifies world, world.store
      ensures world.Went()
      ensures var Promoting(started, todo, _) := old(Scheduler(world.st, k));
              Scheduler(world.st, k) == if ok then Scanning(started, todo) else Sleeping
      ensures world.own == old(world.own) + acts && acts != []
      ensures forall i :: 0 <= i < |acts| - 1 ==> TickStep(acts[i], k)
      ensures if ok then TickStep(acts[|acts| - 1], k) else FailedTickWrite(acts[|acts| - 1], k)
      ensures !ok ==> world.errors > old(world.errors)
      ensures world.alone ==>
                && ok
                && world.st.db == WithProcessed(Enqueued(Updated(old(world.st).db, d.View()), d.id, SubjectOf(world.cfg, d.View())), d.id)
    {
      ghost var a;
      ok, a := world.UpdatePromoted(k, d.View());
      acts := [a];
      if !ok {
        return false, acts;
      }
      ok, a := world.Enqueue(k, d.id, Routing.NotificationSubject(world.cfg.prefix, d.key.channel, d.priority));
      acts := acts + [a];
      if !ok {
        return false, acts;
      }
      ok, a := world.MarkProcessed(k, d.id);
      acts := acts + [a];
    }
  }

  // ----- internal/application/outbox

  class OutboxPublisher {
    const world: World

    constructor (world: World)
      ensures this.world == world
    {
      this.world := world;
    }

    /** The actions of a whole flush of the protocol's publisher. */
    predicate WholeFlush(acts: seq<Action>, p: nat) {
      && |acts| >= 2 && acts[|acts| - 1] == ByPublisher(p, EndFlush)
      && FlushBegins(acts[..|acts| - 1], p)
    }

    predicate FlushBegins(acts: seq<Action>, p: nat) {
      acts != [] && acts[0] == ByPublisher(p, Fetch) && forall i :: 0 < i < |acts| ==> FlushStep(acts[i], p)
    }

    /**
      Publishes the oldest pending rows. The result says whether they could be fetched; what fails for a single
      row is passed over. Where nothing else runs and only certain rows cannot be published, `Draining` says
      what flushes achieve.
    */
    method Flush(p: nat) returns (ok: bool, ghost acts: seq<Action>)
      requires world.Valid() && Publisher(world.st, p).Waiting?
      modifies world, world.store
      ensures world.Went() && Publisher(world.st, p).Waiting?
      ensures if ok then world.own == old(world.own) + acts && WholeFlush(acts, p) else world.Failed()
      ensures world.alone ==>
                ok && world.st.db == old(world.st).db.(outbox := Draining.FlushOnce(old(world.st).db.outbox, world.cfg.batch, world.poison))
    {
      var rows;
      ok, rows := world.FetchPending(p);
      if !ok {
        return false, [];
      }
      acts := [ByPublisher(p, Fetch)];
      var i := 0;
      while i < |rows|
        invariant i <= |rows| && world.Went()
        invariant Publisher(world.st, p) == Flushing(rows[i..])
        invariant world.own == old(world.own) + acts && FlushBegins(acts, p)
        invariant forall j :: 0 <= j < |rows| ==> rows[j] < |world.st.db.outbox|
        invariant world.alone ==>
                    && |world.st.db.outbox| == |old(world.st).db.outbox|
                    && world.st.db == old(world.st).db.(outbox := world.st.db.outbox)
                    && Draining.Flushed(world.st.db.outbox, rows[i..], world.poison) ==
                       Draining.FlushOnce(old(world.st).db.outbox, world.cfg.batch, world.poison)
      {
        ghost var turn := PublishRow(p, rows[i]);
        Joined(old(world.own), acts, turn);
        acts := acts + turn;
        i := i + 1;
      }
      world.EndFlush(p);
      ghost var before := acts;
      Joined(old(world.own), before, [ByPublisher(p, EndFlush)]);
      acts := before + [ByPublisher(p, EndFlush)];
      assert acts[..|before|] == before;
      ok := true;
    }

    /** One turn of the loop. */
    method PublishRow(p: nat, r: nat) returns (ghost acts: seq<Action>)
      requires world.Valid() && Publisher(world.st, p).Flushing? && Publisher(world.st, p).todo != []
      requires Publisher(world.st, p).todo[0] == r < |world.st.db.outbox|
      modifies world, world.store
      ensures world.Went() && OutboxKept(old(world.st).db.outbox, world.st.db.outbox)
      ensures Publisher(world.st, p) == Flushing(old(Publisher(world.st, p)).todo[1..])
      ensures world.own == old(world.own) + acts && forall i :: 0 <= i < |acts| ==> FlushStep(acts[i], p)
      ensures world.alone ==>
                world.st.db == old(world.st).db.(outbox := Draining.RowFlushed(old(world.st).db.outbox, r, world.poison))
    {
      var row := world.st.db.outbox[r];
      var ok, published, a := world.HasPublishedForDelivery(p, r, row.delivery);
      acts := [a];
      if ok && published {
        a := world.MarkPublished(p, r);
        acts := acts + [a];
      } else if ok {
        ghost var rest := PublishAndMark(p, r, row);
        Joined(old(world.own), acts, rest);
        acts := acts + rest;
      }
    }

    /** The part of the turn that follows the check. */
    method PublishAndMark(p: nat, r: nat, row: OutboxRow) returns (ghost acts: seq<Action>)
      requires world.Valid() && Publisher(world.st, p).Publishing? && Publisher(world.st, p).row == r < |world.st.db.outbox|
      requires world.st.db.outbox[r].delivery == row.delivery && world.st.db.outbox[r].subject == row.subject
      modifies world, world.store
      ensures world.Went() && OutboxKept(old(world.st).db.outbox, world.st.db.outbox)
      ensures Publisher(world.st, p) == Flushing(old(Publisher(world.st, p)).todo)
      ensures world.own == old(world.own) + acts && forall i :: 0 <= i < |acts| ==> FlushStep(acts[i], p)
      ensures world.alone ==> world.st.db == if r in world.poison then WithFailure(old(world.st).db, r) else WithPublished(old(world.st).db, r)
    {
      var ok, a := world.Publish(p, r, row.delivery, row.subject);
      ghost var b;
      if ok {
        b := world.MarkPublished(p, r);
      } else {
        b := world.MarkFailed(p, r);
      }
      acts := [a, b];
    }
  }
}
