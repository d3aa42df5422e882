/**
  When a delivery is published from the outbox at most once, however many outbox rows it
  has. Four failures can bring it to the broker twice; a run without them never does, and
  each of them alone is enough.
*/
module Publishing {
  import opened Wrappers
  import opened Protocol
  import opened Frames
  import opened Exactness

  /** What can go wrong between a publish and its mark. Any other call may fail, and publishers may stop anywhere else. */
  datatype Fault =
    | SecondPublisher   // publisher 0 is not the only one
    | LostReply         // a publish that succeeds is reported as failed
    | LostMark          // the mark of a published row is not stored
    | MissedMark        // a publisher stops before marking a published row

  function Faults(s: State, a: Action): set<Fault> {
    if !a.ByPublisher? then {}
    else (if a.p != 0 then {SecondPublisher} else {})
         + match a.pop
           case Publish(Unacknowledged) => {LostReply}
           case Mark(Lost) => {LostMark}
           case Halt => if Publisher(s, a.p).Marking? then {MissedMark} else {}
           case _ => {}
  }

  /** No other faults than these occur. */
  ghost predicate OnlyFaults(cfg: Config, acts: seq<Action>, allowed: set<Fault>)
    requires RunFrom(cfg, INIT, acts).Some?
  {
    acts == [] ||
    var before := acts[..|acts| - 1];
    OnlyFaults(cfg, before, allowed) && Faults(RunFrom(cfg, INIT, before).value, acts[|acts| - 1]) <= allowed
  }

  /** Publisher 0 is about to mark a row of the delivery. */
  predicate MarkingFor(s: State, id: nat) {
    Publisher(s, 0).Marking? && Publisher(s, 0).row < |s.db.outbox| && s.db.outbox[Publisher(s, 0).row].delivery == id
  }

  /** No delivery has two messages but for its replays. */
  ghost predicate PublishedOnce(bus: Bus) {
    forall m, n :: 0 <= m < n < |bus.stream| && !bus.stream[m].replay && !bus.stream[n].replay ==>
      bus.stream[m].delivery != bus.stream[n].delivery
  }

  ghost predicate Accounted(s: State) {
    forall m :: 0 <= m < |s.bus.stream| && !s.bus.stream[m].replay ==>
      HasPublished(s.db.outbox, s.bus.stream[m].delivery) || MarkingFor(s, s.bus.stream[m].delivery)
  }

  ghost predicate OrderlyInv(s: State) {
    && PublishedOnce(s.bus) && Accounted(s)
    && (Publisher(s, 0).Publishing? ==>
          Publisher(s, 0).row < |s.db.outbox| && !HasPublished(s.db.outbox, s.db.outbox[Publisher(s, 0).row].delivery))
  }

  lemma PublisherKeepsOnce(cfg: Config, s: State, op: PublisherOp)
    requires OrderlyInv(s) && PublisherCan(s, 0, op) && Faults(s, ByPublisher(0, op)) == {}
    ensures OrderlyInv(PublisherDoes(cfg, s, 0, op))
  {
    var t := PublisherDoes(cfg, s, 0, op);
    match op
    case Mark(_) => MarkAccounts(s, Publisher(s, 0).row);
    case MarkFailed(_) => FailureAccounts(s, Publisher(s, 0).row);
    case Publish(_) => PublishKeepsOnce(cfg, s, op.write);
    case _ =>
  }

  lemma PublishKeepsOnce(cfg: Config, s: State, write: Write)
    requires OrderlyInv(s) && PublisherCan(s, 0, Publish(write)) && write != Unacknowledged
    ensures OrderlyInv(AfterPublish(s, 0, write))
  {
    var t := AfterPublish(s, 0, write);
    if write.Applied? {
      var id := s.db.outbox[Publisher(s, 0).row].delivery;
      assert MarkingFor(t, id);
      forall m | 0 <= m < |s.bus.stream| && !s.bus.stream[m].replay ensures s.bus.stream[m].delivery != id {
        assert !MarkingFor(s, s.bus.stream[m].delivery);
      }
    }
  }

  lemma MarkAccounts(s: State, r: nat)
    requires r < |s.db.outbox|
    ensures forall id :: HasPublished(WithPublished(s.db, r).outbox, id) <==>
              HasPublished(s.db.outbox, id) || s.db.outbox[r].delivery == id
  {
    var after := WithPublished(s.db, r).outbox;
    forall id
      ensures HasPublished(after, id) <==> HasPublished(s.db.outbox, id) || s.db.outbox[r].delivery == id
    {
      if s.db.outbox[r].delivery == id { assert after[r].published; }
      if HasPublished(s.db.outbox, id) {
        var q :| 0 <= q < |s.db.outbox| && s.db.outbox[q].delivery == id && s.db.outbox[q].published;
        assert after[q].delivery == id && after[q].published;
      }
    }
  }

  lemma FailureAccounts(s: State, r: nat)
    requires r < |s.db.outbox|
    ensures forall id :: HasPublished(WithFailure(s.db, r).outbox, id) <==> HasPublished(s.db.outbox, id)
  {
    var after := WithFailure(s.db, r).outbox;
    forall id ensures HasPublished(after, id) <==> HasPublished(s.db.outbox, id) {
      if HasPublished(s.db.outbox, id) {
        var q :| 0 <= q < |s.db.outbox| && s.db.outbox[q].delivery == id && s.db.outbox[q].published;
        assert after[q].delivery == id && after[q].published;
      }
    }
  }

  lemma GrownAccounts(before: seq<OutboxRow>, after: seq<OutboxRow>)
    requires Grown(before, after)
    ensures forall id :: HasPublished(after, id) <==> HasPublished(before, id)
  {
    assert forall r :: 0 <= r < |before| ==> after[r] == before[r];
    forall id ensures HasPublished(after, id) <==> HasPublished(before, id) {
      if HasPublished(before, id) {
        var q :| 0 <= q < |before| && before[q].delivery == id && before[q].published;
        assert after[q].delivery == id && after[q].published;
      }
    }
  }

  lemma OthersKeepOnce(s: State, t: State)
    requires OrderlyInv(s) && t.publishers == s.publishers && Grown(s.db.outbox, t.db.outbox)
    requires s.bus.stream <= t.bus.stream
    requires forall m :: |s.bus.stream| <= m < |t.bus.stream| ==> t.bus.stream[m].replay
    ensures OrderlyInv(t)
  {
    GrownAccounts(s.db.outbox, t.db.outbox);
    assert forall r :: 0 <= r < |s.db.outbox| ==> t.db.outbox[r] == s.db.outbox[r];
    forall m | 0 <= m < |t.bus.stream| && !t.bus.stream[m].replay
      ensures HasPublished(t.db.outbox, t.bus.stream[m].delivery) || MarkingFor(t, t.bus.stream[m].delivery)
    {
      assert t.bus.stream[m] == s.bus.stream[m];
    }
  }

  lemma {:induction false} OrderlyRunInv(cfg: Config, acts: seq<Action>)
    requires RunFrom(cfg, INIT, acts).Some? && OnlyFaults(cfg, acts, {})
    ensures OrderlyInv(RunFrom(cfg, INIT, acts).value)
  {
    if acts != [] {
      var before, a := acts[..|acts| - 1], acts[|acts| - 1];
      OrderlyRunInv(cfg, before);
      OrderlyStep(cfg, RunFrom(cfg, INIT, before).value, a);
    }
  }

  lemma OrderlyStep(cfg: Config, s: State, a: Action)
    requires OrderlyInv(s) && Enabled(cfg, s, a) && Faults(s, a) == {}
    ensures OrderlyInv(Apply(cfg, s, a))
  {
    match a
    case Tick(now) => OthersKeepOnce(s, s.(now := now));
    case ByPublisher(p, op) => PublisherKeepsOnce(cfg, s, op);
    case ByClient(c, op) =>
      ClientFrame(cfg, s, c, op);
      OthersKeepOnce(s, ClientDoes(cfg, s, c, op));
    case ByScheduler(k, op) =>
      SchedulerFrame(cfg, s, k, op);
      OthersKeepOnce(s, SchedulerDoes(cfg, s, k, op));
    case ByWorker(w, op) =>
      WorkerFrame(cfg, s, w, op);
      OthersKeepOnce(s, WorkerDoes(cfg, s, w, op));
    case ByReplay(r, op) =>
      ReplayFrame(cfg, s, r, op);
      OthersKeepOnce(s, ReplayDoes(cfg, s, r, op));
  }

  /** In every run without these faults, all flushes together publish each delivery at most once. */
  lemma EachDeliveryPublishedOnce(cfg: Config, acts: seq<Action>)
    requires RunFrom(cfg, INIT, acts).Some? && OnlyFaults(cfg, acts, {})
    ensures PublishedOnce(RunFrom(cfg, INIT, acts).value.bus)
  {
    OrderlyRunInv(cfg, acts);
  }

  // ----- Each fault is enough

  ghost predicate ClosedUnder(cfg: Config, allowed: set<Fault>, p: iset<State>) {
    && INIT in p
    && (forall s, a :: s in p && Enabled(cfg, s, a) && Faults(s, a) <= allowed ==> Apply(cfg, s, a) in p)
  }

  /** The states that runs with no other faults than these reach. */
  ghost predicate Allowing(cfg: Config, allowed: set<Fault>, s: State) {
    forall p :: ClosedUnder(cfg, allowed, p) ==> s in p
  }

  lemma AllowingStep(cfg: Config, allowed: set<Fault>, s: State, a: Action)
    requires Allowing(cfg, allowed, s) && Enabled(cfg, s, a) && Faults(s, a) <= allowed
    ensures Allowing(cfg, allowed, Apply(cfg, s, a))
  {
    forall p | ClosedUnder(cfg, allowed, p) ensures Apply(cfg, s, a) in p {
      assert s in p;
    }
  }

  lemma ByOne(cfg: Config, allowed: set<Fault>, s: State, p: nat, op: PublisherOp)
    requires Allowing(cfg, allowed, s) && PublisherCan(s, p, op) && Faults(s, ByPublisher(p, op)) <= allowed
    ensures Allowing(cfg, allowed, PublisherDoes(cfg, s, p, op))
  {
    AllowingStep(cfg, allowed, s, ByPublisher(p, op));
  }

  ghost predicate ReachedWith(cfg: Config, allowed: set<Fault>, s: State) {
    exists acts :: RunFrom(cfg, INIT, acts) == Some(s) && OnlyFaults(cfg, acts, allowed)
  }

  lemma AllowingIsReached(cfg: Config, allowed: set<Fault>, s: State)
    requires Allowing(cfg, allowed, s)
    ensures ReachedWith(cfg, allowed, s)
  {
    var p := iset t | ReachedWith(cfg, allowed, t);
    assert ReachedWith(cfg, allowed, INIT) by {
      assert RunFrom(cfg, INIT, []) == Some(INIT) && OnlyFaults(cfg, [], allowed);
    }
    forall t, a | t in p && Enabled(cfg, t, a) && Faults(t, a) <= allowed ensures Apply(cfg, t, a) in p {
      var acts :| RunFrom(cfg, INIT, acts) == Some(t) && OnlyFaults(cfg, acts, allowed);
      RunSnoc(cfg, INIT, acts, t, a);
      assert (acts + [a])[..|acts|] == acts;
    }
    assert ClosedUnder(cfg, allowed, p);
  }

  /** Delivery 0 has the only outbox row, which is pending, and publisher 0 is as given. */
  ghost predicate PendingFor(cfg: Config, allowed: set<Fault>, s: State, pc: PublisherPc) {
    && Allowing(cfg, allowed, s) && Publisher(s, 0) == pc
    && |s.db.outbox| == 1 && s.db.outbox[0].delivery == 0 && !s.db.outbox[0].published
  }

  /** The delivery is on the stream, which does not keep it from being published again. */
  ghost predicate SentOnce(s: State) {
    |s.bus.stream| == 1 && s.bus.stream[0].delivery == 0 && !s.bus.stream[0].replay
  }

  lemma IngestOne(cfg: Config, allowed: set<Fault>) returns (s: State)
    ensures PendingFor(cfg, allowed, s, Waiting) && s.publishers == map[] && s.bus == INIT.bus
  {
    assert Allowing(cfg, allowed, INIT);
    AllowingStep(cfg, allowed, INIT, ByClient(0, Lookup(REQUEST)));
    var s1 := AfterLookup(cfg, INIT, 0, REQUEST);
    AllowingStep(cfg, allowed, s1, ByClient(0, Commit));
    s := AfterCommit(cfg, s1, 0);
  }

  /** A publisher fetches the row and finds nothing published for the delivery. */
  lemma FetchIt(cfg: Config, allowed: set<Fault>, s: State, p: nat) returns (t: State)
    requires cfg.batch > 0 && PendingFor(cfg, allowed, s, Publisher(s, 0)) && Publisher(s, p).Waiting?
    requires p != 0 ==> SecondPublisher in allowed
    ensures Allowing(cfg, allowed, t) && t == s.(publishers := s.publishers[p := Protocol.Publishing(0, [])])
  {
    ByOne(cfg, allowed, s, p, Fetch);
    var s1 := PublisherDoes(cfg, s, p, Fetch);
    assert Oldest(s.db.outbox, 1, cfg.batch - 1) == [];
    assert s1.publishers[p] == Flushing([0]);
    ByOne(cfg, allowed, s1, p, Check(true));
    t := PublisherDoes(cfg, s1, p, Check(true));
    assert [0 as nat][1..] == [];
    assert t.publishers == s.publishers[p := Protocol.Publishing(0, [])];
  }

  /** A publish that the publisher forgets, in one of three ways. */
  lemma SendAndForget(cfg: Config, allowed: set<Fault>, s: State, fault: Fault) returns (t: State)
    requires PendingFor(cfg, allowed, s, Protocol.Publishing(0, [])) && s.bus == INIT.bus
    requires fault in allowed && fault != SecondPublisher
    ensures PendingFor(cfg, allowed, t, Waiting) && SentOnce(t)
  {
    var write := if fault == LostReply then Unacknowledged else Applied;
    ByOne(cfg, allowed, s, 0, Publish(write));
    var s1 := PublisherDoes(cfg, s, 0, Publish(write));
    if fault == MissedMark {
      ByOne(cfg, allowed, s1, 0, Halt);
      t := PublisherDoes(cfg, s1, 0, Halt);
    } else {
      var op := if fault == LostMark then Mark(Lost) else MarkFailed(Lost);
      ByOne(cfg, allowed, s1, 0, op);
      var s2 := PublisherDoes(cfg, s1, 0, op);
      ByOne(cfg, allowed, s2, 0, EndFlush);
      t := PublisherDoes(cfg, s2, 0, EndFlush);
    }
  }

  /** The second publish. */
  lemma SendAgain(cfg: Config, allowed: set<Fault>, s: State, p: nat) returns (t: State)
    requires PendingFor(cfg, allowed, s, Publisher(s, 0)) && SentOnce(s) && Publisher(s, p) == Protocol.Publishing(0, [])
    requires p != 0 ==> SecondPublisher in allowed
    ensures ReachedWith(cfg, allowed, t) && !PublishedOnce(t.bus)
  {
    ByOne(cfg, allowed, s, p, Publish(Applied));
    t := PublisherDoes(cfg, s, p, Publish(Applied));
    assert t.bus.stream[0].delivery == t.bus.stream[1].delivery && !t.bus.stream[0].replay && !t.bus.stream[1].replay;
    AllowingIsReached(cfg, allowed, t);
  }

  /** Any one of the faults is enough for a second message. */
  lemma FaultPublishesTwice(cfg: Config, fault: Fault) returns (t: State)
    requires cfg.batch > 0
    ensures ReachedWith(cfg, {fault}, t) && !PublishedOnce(t.bus)
  {
    var s := IngestOne(cfg, {fault});
    var s1 := FetchIt(cfg, {fault}, s, 0);
    if fault == SecondPublisher {
      var s2 := FetchIt(cfg, {fault}, s1, 1);
      ByOne(cfg, {fault}, s2, 0, Publish(Applied));
      t := SendAgain(cfg, {fault}, PublisherDoes(cfg, s2, 0, Publish(Applied)), 1);
    } else {
      var s2 := SendAndForget(cfg, {fault}, s1, fault);
      var s3 := FetchIt(cfg, {fault}, s2, 0);
      t := SendAgain(cfg, {fault}, s3, 0);
    }
  }

  lemma {:induction false} MoreFaults(cfg: Config, acts: seq<Action>, few: set<Fault>, many: set<Fault>)
    requires RunFrom(cfg, INIT, acts).Some? && OnlyFaults(cfg, acts, few) && few <= many
    ensures OnlyFaults(cfg, acts, many)
  {
    if acts != [] { MoreFaults(cfg, acts[..|acts| - 1], few, many); }
  }

  /** All runs with no other faults than these publish every delivery at most once exactly if there are none. */
  lemma PublishedOnceExactly(cfg: Config, allowed: set<Fault>)
    requires cfg.batch > 0
    ensures (forall s :: ReachedWith(cfg, allowed, s) ==> PublishedOnce(s.bus)) <==> allowed == {}
  {
    if allowed == {} {
      forall s | ReachedWith(cfg, allowed, s) ensures PublishedOnce(s.bus) {
        var acts :| RunFrom(cfg, INIT, acts) == Some(s) && OnlyFaults(cfg, acts, allowed);
        EachDeliveryPublishedOnce(cfg, acts);
      }
    } else {
      var fault :| fault in allowed;
      var t := FaultPublishesTwice(cfg, fault);
      var acts :| RunFrom(cfg, INIT, acts) == Some(t) && OnlyFaults(cfg, acts, {fault});
      MoreFaults(cfg, acts, {fault}, allowed);
      assert ReachedWith(cfg, allowed, t);
    }
  }
}
