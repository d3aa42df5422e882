/**
  What the services run against: the repositories, the broker, the clock, and every
  other process of the system.

  A method of `World` is one call of the process named by its first argument. Before the
  call takes effect the other processes do whatever they like (`Others`), so between any
  two calls of a service everything may have moved but the service's own locals. The
  method then performs the statement on the repositories and takes the matching action of
  the protocol, which its precondition must find enabled. `own` is the trace of these
  actions, and `errors` counts the calls that returned an error, so a contract can say what
  a service did, and that it gave up only because a call failed.
*/
module Runtime {
  import opened Wrappers
  import opened Notification
  import opened Protocol
  import opened Frames
  import opened Repositories
  import opened Safety
  import opened Guarantees
  import opened Dispatches

  datatype Process = Clock | AClient(c: nat) | APublisher(p: nat) | AScheduler(k: nat) | AWorker(w: nat) | AReplay(r: nat)

  function Actor(a: Action): Process {
    match a
    case Tick(_) => Clock
    case ByClient(c, _) => AClient(c)
    case ByPublisher(p, _) => APublisher(p)
    case ByScheduler(k, _) => AScheduler(k)
    case ByWorker(w, _) => AWorker(w)
    case ByReplay(r, _) => AReplay(r)
  }

  /** The process stands where it stood, time has not gone back, and nothing is gone. */
  ghost predicate Stands(self: Process, s: State, t: State) {
    && s.now <= t.now && s.bus.stream <= t.bus.stream && OutboxKept(s.db.outbox, t.db.outbox)
    && match self
       case Clock => true
       case AClient(c) => Client(t, c) == Client(s, c)
       case APublisher(p) => Publisher(t, p) == Publisher(s, p)
       case AScheduler(k) => Scheduler(t, k) == Scheduler(s, k)
       case AWorker(w) => Worker(t, w) == Worker(s, w)
       case AReplay(r) => Replay(t, r) == Replay(s, r)
  }

  predicate Avoids(acts: seq<Action>, self: Process) {
    forall i :: 0 <= i < |acts| ==> Actor(acts[i]) != self
  }

  lemma StandsStep(cfg: Config, s: State, a: Action, self: Process)
    requires Enabled(cfg, s, a) && Actor(a) != self
    ensures Stands(self, s, Apply(cfg, s, a))
  {
    match a
    case Tick(_) =>
    case ByClient(c, op) => ClientFrame(cfg, s, c, op);
    case ByPublisher(p, op) => PublisherFrame(cfg, s, p, op);
    case ByScheduler(k, op) => SchedulerFrame(cfg, s, k, op);
    case ByWorker(w, op) => WorkerFrame(cfg, s, w, op);
    case ByReplay(r, op) => ReplayFrame(cfg, s, r, op);
  }

  lemma {:induction false} StandsRun(cfg: Config, s: State, acts: seq<Action>, self: Process)
    requires RunFrom(cfg, s, acts).Some? && Avoids(acts, self)
    ensures Stands(self, s, RunFrom(cfg, s, acts).value)
  {
    if acts != [] {
      var before := acts[..|acts| - 1];
      StandsRun(cfg, s, before, self);
      StandsStep(cfg, RunFrom(cfg, s, before).value, acts[|acts| - 1], self);
    }
  }

  // ----- Facts about reachable states that the calls rely on

  lemma RowsExist(cfg: Config, s: State, p: nat)
    requires Reaches(cfg, INIT, s) && !Publisher(s, p).Waiting?
    ensures var pc := Publisher(s, p);
            && (forall i :: 0 <= i < |pc.todo| ==> pc.todo[i] < |s.db.outbox|)
            && (pc.Publishing? || pc.Marking? || pc.Failing? ==> pc.row < |s.db.outbox|)
  {
    ReachesIsReachable(cfg, s);
    ReachableInv(cfg, s);
    assert PublisherOk(s, Publisher(s, p));
  }

  lemma IdIsNew(cfg: Config, s: State, c: nat)
    requires Reaches(cfg, INIT, s) && Client(s, c).Committing?
    ensures var id := Client(s, c).d.id;
            id !in s.db.deliveries && forall key :: key in s.db.keys ==> s.db.keys[key].delivery != id
  {
    ReachesIsReachable(cfg, s);
    ReachableInv(cfg, s);
    assert ClientOk(cfg, s, Client(s, c));
    assert RowsInv(cfg, s);
  }

  lemma KeyHasDelivery(cfg: Config, s: State, key: Key)
    requires Reaches(cfg, INIT, s) && key in s.db.keys
    ensures var id := s.db.keys[key].delivery; id in s.db.deliveries && s.db.deliveries[id].id == id
  {
    ReachesIsReachable(cfg, s);
    ReachableInv(cfg, s);
    assert HasKey(s.db, s.db.keys[key].delivery, key);
    assert RowOk(cfg, s, s.db.keys[key].delivery);
  }

  lemma RowHasItsId(cfg: Config, s: State, id: nat)
    requires Reaches(cfg, INIT, s)
    ensures id in s.db.deliveries ==> s.db.deliveries[id].id == id
  {
    ReachesIsReachable(cfg, s);
    ReachableInv(cfg, s);
    if id in s.db.deliveries { assert RowOk(cfg, s, id); }
  }

  lemma KeyStays(cfg: Config, s: State, t: State, id: nat)
    requires Reaches(cfg, INIT, s) && Reaches(cfg, s, t) && id in s.db.deliveries
    ensures id in t.db.deliveries && t.db.deliveries[id].key == s.db.deliveries[id].key
  {
    ReachesIsReachable(cfg, s);
    ReachableInv(cfg, s);
    var acts := RunOf(cfg, s, t);
    RunKeepsIdentity(cfg, s, acts, id);
  }

  lemma Joined(own: seq<Action>, acts: seq<Action>, more: seq<Action>)
    ensures own + acts + more == own + (acts + more)
  {
  }

  class World {
    const cfg: Config
    const store: Store
    /** The whole system: the tables, the broker, the clock, and where every process stands. */
    var st: State
    /** The actions of the calling services, and the number of their calls that returned an error. */
    ghost var own: seq<Action>
    ghost var errors: nat

    ghost predicate Valid()
      reads this, store
    {
      store.View() == st.db && Reaches(cfg, INIT, st)
    }

    /** The system has come from where it was by steps of the protocol. */
    twostate predicate Went()
      reads this, store
    {
      Valid() && Reaches(cfg, old(st), st) && old(st).now <= st.now && old(errors) <= errors
    }

    /** The call took this action, and returned an error or not. */
    twostate predicate Took(a: Action, ok: bool)
      reads this
    {
      own == old(own) + [a] && errors == old(errors) + if ok then 0 else 1
    }

    /** The call had no effect but to return an error. */
    twostate predicate Failed()
      reads this
    {
      own == old(own) && errors == old(errors) + 1
    }

    /** No other process runs, and no call fails but the publishing of the outbox rows in `poison`. */
    const alone: bool
    const poison: set<nat>

    constructor (cfg: Config, alone: bool, poison: set<nat>)
      ensures Valid() && this.cfg == cfg && fresh(store) && st == INIT
      ensures this.alone == alone && this.poison == poison
    {
      this.cfg, this.alone, this.poison := cfg, alone, poison;
      store := new Store();
      st, own, errors := INIT, [], 0;
    }

    /** The process takes an action whose effect on the tables has just been stored, and the call returns. */
    method Advance(a: Action, ok: bool)
      requires Reaches(cfg, INIT, st) && Enabled(cfg, st, a) && store.View() == Apply(cfg, st, a).db
      modifies this`st, this`own, this`errors
      ensures Went() && Took(a, ok) && st == Apply(cfg, old(st), a)
    {
      StandsStep(cfg, st, a, if Actor(a) == Clock then AClient(0) else Clock);
      ReachesStep(cfg, INIT, st, a);
      ReachesStep(cfg, st, st, a);
      st := Apply(cfg, st, a);
      own := own + [a];
      errors := errors + if ok then 0 else 1;
    }

    method Fail()
      requires Valid()
      modifies this`errors
      ensures Went() && Failed()
    {
      errors := errors + 1;
    }

    /** The other processes and the clock take any number of steps. */
    method Others(self: Process)
      requires Valid()
      modifies this`st, store
      ensures Went() && Stands(self, old(st), st)
      ensures alone ==> st == old(st)
    {
      var acts: seq<Action> := *;
      if !alone && Avoids(acts, self) {
        match RunFrom(cfg, st, acts) {
          case Some(t) =>
            RunReaches(cfg, st, acts);
            StandsRun(cfg, st, acts, self);
            ReachesOn(cfg, INIT, st, t);
            st := t;
            store.Refresh(t.db);
          case None =>
        }
      }
    }

    method Now() returns (now: int)
      ensures now == st.now
    {
      return st.now;
    }

    /** How a write ends. */
    method Outcome() returns (write: Write)
      ensures alone ==> write.Applied?
    {
      write := *;
      if alone {
        write := Applied;
      }
    }

    /** Whether a call that writes nothing succeeds. */
    method Answered() returns (ok: bool)
      ensures alone ==> ok
    {
      ok := *;
      ok := ok || alone;
    }

    // ----- Calls of the dispatch workers

    method FindByID(w: nat, id: nat) returns (found: Option<Row>, ghost a: Action)
      requires Valid() && Handles(st, w, id)
      modifies this`st, this`own, this`errors, store
      ensures Went() && a.ByWorker? && a.w == w && a.wop.Find? && Took(a, a.wop.ok) && (found.Some? ==> a.wop.ok)
      ensures alone ==> a.wop.ok && st == WorkerDoes(cfg, old(st), w, Find(true))
      ensures Worker(st, w) == PcAfterFind(old(Worker(st, w)).copy, found, st.now)
      ensures found.Some? ==> HasStatus(st.db, id, found.value.status) && st.db.deliveries[id] == found.value
    {
      Others(AWorker(w));
      var ok := Answered();
      found := store.FindByID(id);
      if !ok {
        found := None;
      }
      a := ByWorker(w, Find(ok));
      Advance(ByWorker(w, Find(ok)), ok);
    }

    method UpdateIfStatus(w: nat, d: Row, prev: Status) returns (ok: bool, updated: bool, ghost a: Action)
      requires Valid() && Worker(st, w).Claiming? && Worker(st, w).d == d && Worker(st, w).prev == prev
      modifies this`st, this`own, this`errors, store
      ensures Went() && a.ByWorker? && a.w == w && a.wop.Claim? && Took(a, ok) && (ok <==> a.wop.write.Applied?)
      ensures alone ==> ok && st == WorkerDoes(cfg, old(st), w, Claim(Applied))
      ensures var copy := old(Worker(st, w)).copy;
              Worker(st, w) ==
              if !ok then Replying(copy, false) else if updated then Owning(copy, d, d, None, Gating) else Replying(copy, true)
    {
      Others(AWorker(w));
      var write := Outcome();
      ok, updated := store.UpdateIfStatus(d, prev, write);
      a := ByWorker(w, Claim(write));
      Advance(ByWorker(w, Claim(write)), ok);
    }

    /** What the worker has found out about provider and breaker; this is not a call. */
    method Decide(w: nat, gate: GateResult)
      requires Valid() && Worker(st, w).Owning? && Worker(st, w).stage == Gating
      modifies this`st, this`own, this`errors
      ensures Went() && Took(ByWorker(w, Gate(gate)), true) && st == WorkerDoes(cfg, old(st), w, Gate(gate))
      ensures st.now == old(st).now && Worker(st, w) == AfterGate(cfg, old(st), w, gate)
    {
      Advance(ByWorker(w, Gate(gate)), true);
    }

    method Send(w: nat, d: Row) returns (result: SendResult)
      requires Valid() && Worker(st, w).Owning? && Worker(st, w).stage == Sending && Worker(st, w).d == d
      requires Worker(st, w).attempt.Some?
      modifies this`st, this`own, this`errors, store
      ensures Went() && Took(ByWorker(w, Protocol.Send(result)), result.Delivered?)
      ensures alone ==> st == WorkerDoes(cfg, old(st), w, Protocol.Send(result))
      ensures var Owning(copy, _, _, attempt, _) := old(Worker(st, w));
              Worker(st, w) == PcAfterSend(cfg, copy, d, attempt.value, result, st.now)
    {
      Others(AWorker(w));
      result := *;
      Advance(ByWorker(w, Protocol.Send(result)), result.Delivered?);
    }

    method RecordAttempt(w: nat, id: nat, attempt: Attempt) returns (ok: bool, ghost a: Action)
      requires Valid() && AtRecord(Worker(st, w)) && Worker(st, w).d.id == id && Worker(st, w).attempt == Some(attempt)
      modifies this`st, this`own, this`errors, store
      ensures Went() && Took(a, ok) && Makes(a, ByWorker(w, Record(Applied)), ok)
      ensures alone ==> ok && Concluded(cfg, st, w) == Concluded(cfg, old(st), w)
      ensures var pc := old(Worker(st, w));
              Worker(st, w) ==
              if !ok then Replying(pc.copy, false)
              else if pc.Owning? then pc.(stage := SavingDlq)
              else if pc.rest == RecordingSuccess then pc.(rest := Auditing)
              else Replying(pc.copy, false)
    {
      Others(AWorker(w));
      var write := Outcome();
      ok := store.RecordAttempt(id, attempt, write);
      a := ByWorker(w, Record(write));
      Advance(ByWorker(w, Record(write)), ok);
    }

    /**
      The owner's final write. It is not guarded, and yet, in a sound deployment, it finds the row as the
      worker's own claim left it, so the row becomes the worker's delivery in every column.
    */
    method Update(w: nat, d: Row) returns (ok: bool, ghost a: Action)
      requires Valid() && AtSave(Worker(st, w)) && Worker(st, w).d == d
      modifies this`st, this`own, this`errors, store
      ensures Went() && Took(a, ok) && Makes(a, ByWorker(w, Save(Applied)), ok)
      ensures alone ==> ok && Concluded(cfg, st, w) == Concluded(cfg, old(st), w)
      ensures var Owning(copy, _, _, attempt, stage) := old(Worker(st, w));
              Worker(st, w) == if ok then Closing(copy, d, attempt, RestAfter(stage)) else Replying(copy, false)
      ensures ok && Sound(cfg) ==> d.id in st.db.deliveries && st.db.deliveries[d.id] == d
    {
      Others(AWorker(w));
      var write := Outcome();
      if Sound(cfg) {
        ReachesIsReachable(cfg, st);
        FinalWriteFindsOwnClaim(cfg, st, w);
      }
      ok := store.Update(d, write);
      a := ByWorker(w, Save(write));
      Advance(ByWorker(w, Save(write)), ok);
    }

    method PublishDead(w: nat, id: nat, subject: string) returns (ghost a: Action)
      requires Valid() && Worker(st, w).Closing? && Worker(st, w).rest == PublishingDlq
      requires Worker(st, w).d.id == id && subject == Routing.DlqSubject(Worker(st, w).d.key.channel)
      modifies this`st, this`own, this`errors, store
      ensures Went() && Worker(st, w) == old(Worker(st, w)).(rest := Auditing)
      ensures own == old(own) + [a] && Makes(a, ByWorker(w, Protocol.PublishDead(Applied)), true)
      ensures alone ==> Concluded(cfg, st, w) == Concluded(cfg, old(st), w)
    {
      Others(AWorker(w));
      var write := Outcome();
      a := ByWorker(w, Protocol.PublishDead(write));
      Advance(ByWorker(w, Protocol.PublishDead(write)), write.Applied?);
    }

    method AppendAudit(w: nat) returns (ok: bool, ghost a: Action)
      requires Valid() && Worker(st, w).Closing? && Worker(st, w).rest == Auditing
      modifies this`st, this`own, this`errors, store
      ensures Went() && Worker(st, w) == Replying(old(Worker(st, w)).copy, ok)
      ensures Took(a, ok) && Makes(a, ByWorker(w, Audit(true)), ok)
      ensures alone ==> ok && Concluded(cfg, st, w) == Concluded(cfg, old(st), w)
    {
      Others(AWorker(w));
      ok := Answered();
      a := ByWorker(w, Audit(ok));
      Advance(ByWorker(w, Audit(ok)), ok);
    }

    /** The copy is acknowledged, or handed back. */
    method Answer(w: nat, copy: Copy, ack: bool) returns (ghost u: State)
      requires Valid() && Worker(st, w) == Replying(copy, ack)
      modifies this`st, this`own, this`errors, store
      ensures Went() && Worker(st, w).Free? && Took(ByWorker(w, Reply), true)
      ensures Reaches(cfg, old(st), u) && Replies(u, st, w, copy, ack)
    {
      Others(AWorker(w));
      u := st;
      Advance(ByWorker(w, Reply), true);
    }

    /** The process goes down with the worker. */
    method GoDown(w: nat)
      requires Valid()
      modifies this`st, this`own, this`errors
      ensures Went() && Worker(st, w).Free? && Took(ByWorker(w, Crash), true)
    {
      Advance(ByWorker(w, Crash), true);
    }

    /** The broker hands over a message, if it has one for the worker. */
    method Receive(w: nat) returns (copy: Option<Copy>)
      requires Valid() && Worker(st, w).Free?
      modifies this`st, this`own, this`errors, store
      ensures Went()
      ensures copy.None? ==> Worker(st, w).Free? && own == old(own)
      ensures copy.Some? ==> Took(ByWorker(w, Pull(copy.value)), true)
      ensures copy.Some? ==> Worker(st, w) == Pulled(copy.value) && copy.value.msg < |st.bus.stream|
    {
      Others(AWorker(w));
      var c: Copy := *;
      if !WorkerCan(cfg, st, w, Pull(c)) {
        return None;
      }
      Advance(ByWorker(w, Pull(c)), true);
      return Some(c);
    }

    // ----- Calls of the ingest clients

    method FindByIdempotencyKey(c: nat, req: Request) returns (ok: bool, found: Option<Row>, id: nat)
      requires Valid() && Client(st, c).Away?
      modifies this`st, this`own, this`errors, store
      ensures Went()
      ensures if ok then Took(ByClient(c, Lookup(req)), true) else Failed() && Client(st, c).Away?
      ensures ok && found.Some? ==>
                && Client(st, c) == Answering(Accepted(req.key, found.value.id, true))
                && HasStatus(st.db, found.value.id, found.value.status)
      ensures ok && found.None? ==>
                var d := NewDelivery(id, req, st.now);
                Client(st, c) == Committing(d, st.now + cfg.ttl, ShouldSchedule(d, st.now))
      ensures alone ==> ok && st == AfterLookup(cfg, old(st), c, req)
    {
      Others(AClient(c));
      ok := Answered();
      if req.key in st.db.keys { KeyHasDelivery(cfg, st, req.key); }
      found := store.FindByIdempotencyKey(req.key, st.now);
      id := st.nextId;
      if ok {
        Advance(ByClient(c, Lookup(req)), true);
      } else {
        Fail();
      }
    }

    method IngestTransactional(c: nat, d: Row, expiresAt: int, subject: string, schedule: bool)
      returns (error: Option<IngestError>)
      requires Valid() && Client(st, c) == Committing(d, expiresAt, schedule) && subject == SubjectOf(cfg, d)
      modifies this`st, this`own, this`errors, store
      ensures Went()
      ensures Client(st, c) ==
              match error
              case None => Answering(Accepted(d.key, d.id, false))
              case Some(Duplicate) => Rechecking(d.key)
              case Some(Broken) => Away
      ensures error.None? ==> HasStatus(st.db, d.id, d.status)
      ensures error != Some(Broken) ==> Took(ByClient(c, Commit), true)
      ensures error == Some(Broken) ==>
                && errors > old(errors)
                && (own == old(own) + [ByClient(c, Abandon)] || own == old(own) + [ByClient(c, Commit), ByClient(c, Abandon)])
      ensures alone ==> error != Some(Broken) && st == AfterCommit(cfg, old(st), c)
    {
      Others(AClient(c));
      var write := Outcome();
      if !write.Lost? {
        IdIsNew(cfg, st, c);
        error := store.IngestTransactional(d, expiresAt, subject, schedule);
        Advance(ByClient(c, Commit), true);
      }
      if !write.Applied? {
        Advance(ByClient(c, Abandon), false);
        error := Some(Broken);
      }
    }

    method FindDuplicate(c: nat, key: Key) returns (ok: bool, found: Option<Row>)
      requires Valid() && Client(st, c) == Rechecking(key)
      modifies this`st, this`own, this`errors, store
      ensures Went() && Took(ByClient(c, if ok then Recheck else Abandon), ok)
      ensures Client(st, c) ==
              if !ok then Away else Answering(if found.Some? then Accepted(key, found.value.id, true) else Refused(key, st.now))
      ensures ok && found.Some? ==> HasStatus(st.db, found.value.id, found.value.status)
      ensures alone ==> ok && st == AfterRecheck(old(st), c)
    {
      Others(AClient(c));
      ok := Answered();
      if key in st.db.keys { KeyHasDelivery(cfg, st, key); }
      found := store.FindByIdempotencyKey(key, st.now);
      Advance(ByClient(c, if ok then Recheck else Abandon), ok);
    }

    method Respond(c: nat, response: Response)
      requires Valid() && Client(st, c) == Answering(response)
      modifies this`st, this`own, this`errors, store
      ensures Went() && Client(st, c).Away? && Took(ByClient(c, Protocol.Answer), true)
      ensures st.log.responses != [] && st.log.responses[|st.log.responses| - 1] == response
      ensures alone ==> st == AfterReply(old(st), c)
    {
      Others(AClient(c));
      Advance(ByClient(c, Protocol.Answer), true);
    }

    // ----- Calls of the outbox publishers

    method FetchPending(p: nat) returns (ok: bool, rows: seq<nat>)
      requires Valid() && Publisher(st, p).Waiting?
      modifies this`st, this`own, this`errors, store
      ensures Went()
      ensures Publisher(st, p) == if ok then Flushing(rows) else Waiting
      ensures if ok then Took(ByPublisher(p, Fetch), true) else Failed()
      ensures ok ==> forall i :: 0 <= i < |rows| ==> rows[i] < |st.db.outbox|
      ensures alone ==> ok && rows == Oldest(old(st).db.outbox, 0, cfg.batch) && st.db == old(st).db
    {
      Others(APublisher(p));
      ok := Answered();
      rows := store.FetchPending(cfg.batch);
      if ok {
        Advance(ByPublisher(p, Fetch), true);
        RowsExist(cfg, st, p);
      } else {
        Fail();
      }
    }

    method HasPublishedForDelivery(p: nat, r: nat, id: nat) returns (ok: bool, published: bool, ghost a: Action)
      requires Valid() && Publisher(st, p).Flushing? && Publisher(st, p).todo != [] && Publisher(st, p).todo[0] == r
      requires r < |st.db.outbox| && st.db.outbox[r].delivery == id
      modifies this`st, this`own, this`errors, store
      ensures Went() && OutboxKept(old(st).db.outbox, st.db.outbox)
      ensures own == old(own) + [a] && FlushStep(a, p)
      ensures var rest := old(Publisher(st, p)).todo[1..];
              Publisher(st, p) == if !ok then Flushing(rest) else if published then Marking(r, rest) else Publishing(r, rest)
      ensures alone ==> ok && (published <==> HasPublished(old(st).db.outbox, id)) && st.db == old(st).db
    {
      Others(APublisher(p));
      ok := Answered();
      published := store.HasPublishedForDelivery(id);
      a := ByPublisher(p, Check(ok));
      Advance(ByPublisher(p, Check(ok)), ok);
    }

    method Publish(p: nat, r: nat, id: nat, subject: string) returns (ok: bool, ghost a: Action)
      requires Valid() && Publisher(st, p).Publishing? && Publisher(st, p).row == r
      requires r < |st.db.outbox| && st.db.outbox[r].delivery == id && st.db.outbox[r].subject == subject
      modifies this`st, this`own, this`errors, store
      ensures Went() && OutboxKept(old(st).db.outbox, st.db.outbox)
      ensures own == old(own) + [a] && FlushStep(a, p)
      ensures var todo := old(Publisher(st, p)).todo;
              Publisher(st, p) == if ok then Marking(r, todo) else Failing(r, todo)
      ensures alone ==> (ok <==> r !in poison) && st.db == old(st).db
    {
      Others(APublisher(p));
      var write := Outcome();
      if alone && r in poison {
        write := Lost;
      }
      ok := write.Applied?;
      a := ByPublisher(p, Protocol.Publish(write));
      Advance(ByPublisher(p, Protocol.Publish(write)), ok);
    }

    method MarkPublished(p: nat, r: nat) returns (ghost a: Action)
      requires Valid() && Publisher(st, p).Marking? && Publisher(st, p).row == r
      modifies this`st, this`own, this`errors, store
      ensures Went() && OutboxKept(old(st).db.outbox, st.db.outbox)
      ensures own == old(own) + [a] && FlushStep(a, p)
      ensures Publisher(st, p) == Flushing(old(Publisher(st, p)).todo)
      ensures alone ==> r < |old(st).db.outbox| && st.db == WithPublished(old(st).db, r)
    {
      RowsExist(cfg, st, p);
      Others(APublisher(p));
      var write := Outcome();
      var ok := store.MarkPublished(r, write);
      a := ByPublisher(p, Mark(write));
      Advance(ByPublisher(p, Mark(write)), ok);
    }

    method MarkFailed(p: nat, r: nat) returns (ghost a: Action)
      requires Valid() && Publisher(st, p).Failing? && Publisher(st, p).row == r
      modifies this`st, this`own, this`errors, store
      ensures Went() && OutboxKept(old(st).db.outbox, st.db.outbox)
      ensures own == old(own) + [a] && FlushStep(a, p)
      ensures Publisher(st, p) == Flushing(old(Publisher(st, p)).todo)
      ensures alone ==> r < |old(st).db.outbox| && st.db == WithFailure(old(st).db, r)
    {
      RowsExist(cfg, st, p);
      Others(APublisher(p));
      var write := Outcome();
      store.MarkFailed(r, write);
      a := ByPublisher(p, Protocol.MarkFailed(write));
      Advance(ByPublisher(p, Protocol.MarkFailed(write)), write.Applied?);
    }

    method EndFlush(p: nat)
      requires Valid() && Publisher(st, p) == Flushing([])
      modifies this`st, this`own, this`errors
      ensures Went() && Publisher(st, p).Waiting? && st.db == old(st).db && Took(ByPublisher(p, Protocol.EndFlush), true)
    {
      Advance(ByPublisher(p, Protocol.EndFlush), true);
    }

    // ----- Calls of the schedulers

    method FetchDue(k: nat) returns (ok: bool, ids: seq<nat>)
      requires Valid() && Scheduler(st, k).Sleeping? && (cfg.oneScheduler ==> k == 0)
      modifies this`st, this`own, this`errors, store
      ensures Went()
      ensures Scheduler(st, k) == if ok then Scanning(st.now, ids) else Sleeping
      ensures if ok then Took(ByScheduler(k, Protocol.FetchDue(ids)), true) else Failed()
      ensures alone ==> ok && st.db == old(st).db && st.now == old(st).now && CanFetchDue(cfg, old(st), ids)
    {
      Others(AScheduler(k));
      ok := Answered();
      ids := store.FetchDue(st.now, cfg.batch);
      if ok {
        Advance(ByScheduler(k, Protocol.FetchDue(ids)), true);
      } else {
        Fail();
      }
    }

    method FindDue(k: nat, id: nat) returns (found: Option<Row>, ghost a: Action)
      requires Valid() && Scheduler(st, k).Scanning? && Scheduler(st, k).todo != [] && Scheduler(st, k).todo[0] == id
      modifies this`st, this`own, this`errors, store
      ensures Went()
      ensures found.Some? ==> found.value.id == id
      ensures own == old(own) + [a] && TickStep(a, k)
      ensures alone ==> st.db == old(st).db && found == if id in st.db.deliveries then Some(st.db.deliveries[id]) else None
      ensures var Scanning(started, todo) := old(Scheduler(st, k));
              Scheduler(st, k) ==
              if found.Some? && found.value.status == Pending then Promoting(started, todo[1..], Stamped(found.value, Queued, started))
              else Scanning(started, todo[1..])
    {
      Others(AScheduler(k));
      RowHasItsId(cfg, st, id);
      var ok := Answered();
      found := store.FindByID(id);
      if !ok {
        found := None;
      }
      a := ByScheduler(k, Load(ok));
      Advance(ByScheduler(k, Load(ok)), ok);
    }

    method UpdatePromoted(k: nat, d: Row) returns (ok: bool, ghost a: Action)
      requires Valid() && Scheduler(st, k).Promoting? && Scheduler(st, k).d == d
      modifies this`st, this`own, this`errors, store
      ensures Went()
      ensures Took(a, ok) && if ok then TickStep(a, k) else FailedTickWrite(a, k)
      ensures alone ==> ok && st.db == Updated(old(st).db, d)
      ensures var Promoting(started, todo, _) := old(Scheduler(st, k));
              Scheduler(st, k) == if ok then Enqueuing(started, todo, d) else Sleeping
    {
      Others(AScheduler(k));
      var write := Outcome();
      ok := store.Update(d, write);
      a := ByScheduler(k, Promote(write));
      Advance(ByScheduler(k, Promote(write)), ok);
    }

    method Enqueue(k: nat, id: nat, subject: string) returns (ok: bool, ghost a: Action)
      requires Valid() && Scheduler(st, k).Enqueuing? && Scheduler(st, k).d.id == id
      requires subject == SubjectOf(cfg, Scheduler(st, k).d)
      modifies this`st, this`own, this`errors, store
      ensures Went()
      ensures Took(a, ok) && if ok then TickStep(a, k) else FailedTickWrite(a, k)
      ensures alone ==> ok && st.db == Enqueued(old(st).db, id, subject)
      ensures var Enqueuing(started, todo, _) := old(Scheduler(st, k));
              Scheduler(st, k) == if ok then Finishing(started, todo, id) else Sleeping
    {
      Others(AScheduler(k));
      var write := Outcome();
      ok := store.Enqueue(id, subject, write);
      a := ByScheduler(k, Protocol.Enqueue(write));
      Advance(ByScheduler(k, Protocol.Enqueue(write)), ok);
    }

    method MarkProcessed(k: nat, id: nat) returns (ok: bool, ghost a: Action)
      requires Valid() && Scheduler(st, k).Finishing? && Scheduler(st, k).id == id
      modifies this`st, this`own, this`errors, store
      ensures Went()
      ensures Took(a, ok) && if ok then TickStep(a, k) else FailedTickWrite(a, k)
      ensures alone ==> ok && st.db == WithProcessed(old(st).db, id)
      ensures var Finishing(started, todo, _) := old(Scheduler(st, k));
              Scheduler(st, k) == if ok then Scanning(started, todo) else Sleeping
    {
      Others(AScheduler(k));
      var write := Outcome();
      ok := store.MarkProcessed(id, write);
      a := ByScheduler(k, MarkDone(write));
      Advance(ByScheduler(k, MarkDone(write)), ok);
    }

    method EndTick(k: nat)
      requires Valid() && Scheduler(st, k).Scanning? && Scheduler(st, k).todo == []
      modifies this`st, this`own, this`errors
      ensures Went() && Scheduler(st, k).Sleeping? && st.db == old(st).db && Took(ByScheduler(k, Protocol.EndTick), true)
    {
      Advance(ByScheduler(k, Protocol.EndTick), true);
    }

    // ----- Calls of replays

    /** The other processes take any number of steps; where replays are serial, none begins one of `id`. */
    method OthersSparing(r: nat, id: nat)
      requires Valid() && (cfg.serialReplays ==> NotReplaying(st, id))
      modifies this`st, store
      ensures Went() && Stands(AReplay(r), old(st), st) && (cfg.serialReplays ==> NotReplaying(st, id))
      ensures alone ==> st == old(st)
    {
      var acts: seq<Action> := *;
      if !alone && Avoids(acts, AReplay(r)) && (cfg.serialReplays ==> Spares(acts, id)) {
        match RunFrom(cfg, st, acts) {
          case Some(t) =>
            RunReaches(cfg, st, acts);
            StandsRun(cfg, st, acts, AReplay(r));
            ReachesOn(cfg, INIT, st, t);
            if cfg.serialReplays { SparingRun(cfg, st, acts, id); }
            st := t;
            store.Refresh(t.db);
          case None =>
        }
      }
    }

    method FindDead(r: nat, id: nat) returns (found: Option<Row>)
      requires Valid() && Replay(st, r).Off? && (cfg.serialReplays ==> NotReplaying(st, id))
      modifies this`st, this`own, this`errors, store
      ensures Went()
      ensures found.Some? ==> id in st.db.deliveries && st.db.deliveries[id] == found.value && found.value.id == id
      ensures found.None? ==> Failed() || (id !in st.db.deliveries && own == old(own))
      ensures found.Some? ==> own == old(own) + if CanReplay(found.value.status) then [ByReplay(r, Open(id))] else []
      ensures Replay(st, r) ==
              if found.Some? && CanReplay(found.value.status) then Saving(Stamped(found.value, Queued, st.now).(retryCount := 0))
              else Off
      ensures alone ==> errors == old(errors) && found == if id in old(st).db.deliveries then Some(old(st).db.deliveries[id]) else None
      ensures alone ==>
                st == if found.Some? && CanReplay(found.value.status) then ReplayDoes(cfg, old(st), r, Open(id)) else old(st)
    {
      OthersSparing(r, id);
      RowHasItsId(cfg, st, id);
      found := store.FindByID(id);
      var ok := Answered();
      if !ok {
        Fail();
        return None;
      }
      if found.Some? && CanReplay(found.value.status) {
        Advance(ByReplay(r, Open(id)), true);
      }
    }

    method UpdateReplayed(r: nat, d: Row) returns (ok: bool)
      requires Valid() && Replay(st, r) == Saving(d)
      modifies this`st, this`own, this`errors, store
      ensures Went()
      ensures Replay(st, r) == if ok then Announcing(d.id, SubjectOf(cfg, d)) else Off
      ensures if ok then Took(ByReplay(r, Requeue(Applied)), true) else errors > old(errors)
      ensures alone ==> ok && st == ReplayDoes(cfg, old(st), r, Requeue(Applied))
    {
      Others(AReplay(r));
      var write := Outcome();
      ok := store.Update(d, write);
      Advance(ByReplay(r, Requeue(write)), ok);
    }

    method PublishReplay(r: nat, id: nat, subject: string) returns (ok: bool)
      requires Valid() && Replay(st, r) == Announcing(id, subject)
      modifies this`st, this`own, this`errors, store
      ensures Went() && Replay(st, r).Off?
      ensures if ok then Took(ByReplay(r, Announce(Applied)), true) else errors > old(errors)
      ensures ok ==> exists m :: 0 <= m < |st.bus.stream| && st.bus.stream[m] == Message(id, subject, true)
      ensures alone ==> ok && st == ReplayDoes(cfg, old(st), r, Announce(Applied))
    {
      Others(AReplay(r));
      var write := Outcome();
      ok := write.Applied?;
      Advance(ByReplay(r, Announce(write)), ok);
      assert ok ==> st.bus.stream[|st.bus.stream| - 1] == Message(id, subject, true);
    }

    method AuditReplay() returns (ok: bool)
      requires Valid()
      modifies this`errors
      ensures Went() && own == old(own) && (!ok ==> errors > old(errors))
      ensures alone ==> ok
    {
      ok := Answered();
      if !ok {
        Fail();
      }
    }
  }

  /** No action begins a replay of `id`. */
  predicate Spares(acts: seq<Action>, id: nat) {
    forall i :: 0 <= i < |acts| ==> !(acts[i].ByReplay? && acts[i].rop == Open(id))
  }

  lemma SparingStep(cfg: Config, s: State, a: Action, id: nat)
    requires Reaches(cfg, INIT, s) && Enabled(cfg, s, a) && NotReplaying(s, id) && !(a.ByReplay? && a.rop == Open(id))
    ensures NotReplaying(Apply(cfg, s, a), id)
  {
    match a
    case ByClient(c, op) => ClientFrame(cfg, s, c, op);
    case ByPublisher(p, op) => PublisherFrame(cfg, s, p, op);
    case ByScheduler(k, op) => SchedulerFrame(cfg, s, k, op);
    case ByWorker(w, op) => WorkerFrame(cfg, s, w, op);
    case ByReplay(r, op) =>
      if op.Open? { RowHasItsId(cfg, s, op.id); }
      SparingReplay(cfg, s, r, op, id);
    case _ =>
  }

  lemma SparingReplay(cfg: Config, s: State, r: nat, op: ReplayOp, id: nat)
    requires ReplayCan(cfg, s, r, op) && NotReplaying(s, id) && op != Open(id)
    requires op.Open? ==> s.db.deliveries[op.id].id == op.id
    ensures NotReplaying(ReplayDoes(cfg, s, r, op), id)
  {
  }

  lemma {:induction false} SparingRun(cfg: Config, s: State, acts: seq<Action>, id: nat)
    requires Reaches(cfg, INIT, s) && RunFrom(cfg, s, acts).Some? && NotReplaying(s, id) && Spares(acts, id)
    ensures NotReplaying(RunFrom(cfg, s, acts).value, id)
  {
    if acts != [] {
      var before := acts[..|acts| - 1];
      SparingRun(cfg, s, before, id);
      RunReaches(cfg, s, before);
      ReachesOn(cfg, INIT, s, RunFrom(cfg, s, before).value);
      SparingStep(cfg, RunFrom(cfg, s, before).value, acts[|acts| - 1], id);
    }
  }

  /** What a publisher does between fetching and the end of its flush. */
  predicate FlushStep(a: Action, p: nat) {
    a.ByPublisher? && a.p == p && a.pop !in {Fetch, EndFlush, Halt}
  }

  /** What a scheduler does between fetching and the end of its tick. */
  predicate TickStep(a: Action, k: nat) {
    && a.ByScheduler? && a.k == k && !a.sop.FetchDue? && a.sop !in {EndTick, Restart}
    && (a.sop.Promote? || a.sop.Enqueue? || a.sop.MarkDone? ==> a.sop.write.Applied?)
  }

  /** A write after which processDue returns its error. */
  predicate FailedTickWrite(a: Action, k: nat) {
    && a.ByScheduler? && a.k == k && (a.sop.Promote? || a.sop.Enqueue? || a.sop.MarkDone?) && !a.sop.write.Applied?
  }

  /** The step from `u` to `t` is the worker's reply: the copy is acknowledged if and only if `ack` says so. */
  ghost predicate Replies(u: State, t: State, w: nat, copy: Copy, ack: bool) {
    Worker(u, w) == Replying(copy, ack) && t.bus == u.bus.(acked := if ack then u.bus.acked + {copy} else u.bus.acked)
  }

  /** The worker has the message of delivery `id` in hand and has not looked at the delivery yet. */
  predicate Handles(s: State, w: nat, id: nat) {
    && Worker(s, w).Pulled? && Worker(s, w).copy.msg < |s.bus.stream|
    && s.bus.stream[Worker(s, w).copy.msg].delivery == id
  }

  function PcAfterFind(copy: Copy, found: Option<Row>, now: int): WorkerPc {
    match found
    case None => Replying(copy, false)
    case Some(row) =>
      if row.status in {Succeeded, Dlq} then Replying(copy, true)
      else if CanStart(row.status) then Claiming(copy, Stamped(row, Processing, now), row.status)
      else Replying(copy, false)
  }

  function PcAfterSend(cfg: Config, copy: Copy, d: Row, attempt: Attempt, result: SendResult, now: int): WorkerPc {
    match result
    case Delivered => Owning(copy, MarkedSucceeded(d, now), d, Some(attempt), SavingSuccess)
    case TransientError(msg) => AfterFailure(cfg, copy, d, attempt, false, msg, now)
    case PermanentError(msg) => AfterFailure(cfg, copy, d, attempt, true, msg, now)
  }
}
