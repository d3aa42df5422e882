/**
  What is stored is what was asked for: every row has the contents of a request that a
  client made, and its key expires a time to live after the row was made. So answers agree
  for that long, and nothing is sent before the time that was asked for.
*/
module Requests {
  import opened Wrappers
  import opened Notification
  import opened Protocol
  import opened Frames
  import opened Safety
  import opened Guarantees
  import Answers

  /** In this run a client looked up the key of this request, at this time. */
  ghost predicate LookedUp(cfg: Config, acts: seq<Action>, req: Request, at: int)
    requires RunFrom(cfg, INIT, acts).Some?
  {
    acts != [] &&
    var before, a := acts[..|acts| - 1], acts[|acts| - 1];
    || LookedUp(cfg, before, req, at)
    || (a.ByClient? && a.cop == Lookup(req) && RunFrom(cfg, INIT, before).value.now == at)
  }

  /** The columns that never change are those of the request. */
  predicate Fits(d: Row, req: Request, at: int) {
    d.key == req.key && d.priority == req.priority && d.scheduledAt == req.scheduledAt && d.createdAt == at
  }

  /** The delivery is the one that is made of the request: for later if that is what was asked for, and queued if not. */
  predicate MadeOf(d: Row, req: Request, at: int) {
    && Fits(d, req, at) && d.retryCount == 0 && d.lastError == "" && d.updatedAt == at
    && d.status == match req.scheduledAt
                   case None => Queued
                   case Some(time) => if time > at then Pending else Queued
  }

  ghost predicate Asked(cfg: Config, acts: seq<Action>, d: Row)
    requires RunFrom(cfg, INIT, acts).Some?
  {
    exists req, at :: LookedUp(cfg, acts, req, at) && Fits(d, req, at)
  }

  /** The client is about to store a request, to expire after the time to live. */
  ghost predicate Storing(cfg: Config, acts: seq<Action>, pc: ClientPc, req: Request, at: int)
    requires RunFrom(cfg, INIT, acts).Some?
  {
    && pc.Committing? && LookedUp(cfg, acts, req, at) && MadeOf(pc.d, req, at)
    && pc.expiresAt == at + cfg.ttl && (pc.schedule <==> pc.d.status == Pending)
  }

  ghost predicate Stores(cfg: Config, acts: seq<Action>, pc: ClientPc)
    requires RunFrom(cfg, INIT, acts).Some?
  {
    exists req, at :: Storing(cfg, acts, pc, req, at)
  }

  ghost predicate AskedInv(cfg: Config, acts: seq<Action>)
    requires RunFrom(cfg, INIT, acts).Some?
  {
    var s := RunFrom(cfg, INIT, acts).value;
    && (forall id :: id in s.db.deliveries ==> Asked(cfg, acts, s.db.deliveries[id]))
    && (forall c :: Client(s, c).Committing? ==> Stores(cfg, acts, Client(s, c)))
  }

  /** Whatever was asked for remains so. */
  lemma StillAsked(cfg: Config, acts: seq<Action>, more: seq<Action>)
    requires RunFrom(cfg, INIT, more).Some? && more != [] && more[..|more| - 1] == acts
    ensures forall req, at :: LookedUp(cfg, acts, req, at) ==> LookedUp(cfg, more, req, at)
    ensures forall d :: Asked(cfg, acts, d) ==> Asked(cfg, more, d)
    ensures forall pc :: Stores(cfg, acts, pc) ==> Stores(cfg, more, pc)
  {
    forall d | Asked(cfg, acts, d) ensures Asked(cfg, more, d) {
      var req, at :| LookedUp(cfg, acts, req, at) && Fits(d, req, at);
      assert LookedUp(cfg, more, req, at);
    }
    forall pc | Stores(cfg, acts, pc) ensures Stores(cfg, more, pc) {
      var req, at :| Storing(cfg, acts, pc, req, at);
      assert Storing(cfg, more, pc, req, at);
    }
  }

  /** A lookup that finds no delivery starts to store the request. */
  lemma LookupStores(cfg: Config, acts: seq<Action>, more: seq<Action>, c: nat, req: Request)
    requires RunFrom(cfg, INIT, more).Some? && more != [] && more[..|more| - 1] == acts
    requires more[|more| - 1] == ByClient(c, Lookup(req))
    ensures var pc := Client(RunFrom(cfg, INIT, more).value, c);
            pc.Committing? ==> Stores(cfg, more, pc)
  {
    var s, t := RunFrom(cfg, INIT, acts).value, RunFrom(cfg, INIT, more).value;
    assert LookedUp(cfg, more, req, s.now);
    if Client(t, c).Committing? { assert Storing(cfg, more, Client(t, c), req, s.now); }
  }

  lemma ClientStillStores(cfg: Config, s: State, a: Action, c: nat)
    requires Enabled(cfg, s, a) && Client(Apply(cfg, s, a), c).Committing?
    ensures Client(Apply(cfg, s, a), c) == Client(s, c) || (a.ByClient? && a.c == c && a.cop.Lookup?)
  {
    if a.ByClient? { ClientFrame(cfg, s, a.c, a.cop); } else { Answers.StepKeepsKeys(cfg, s, a); }
  }

  /** A row that is new was in the hands of a client. */
  lemma NewRowWasCommitted(cfg: Config, s: State, a: Action, id: nat)
    requires Inv(cfg, s) && Enabled(cfg, s, a) && id !in s.db.deliveries && id in Apply(cfg, s, a).db.deliveries
    ensures a.ByClient? && a.cop.Commit? && Client(s, a.c).Committing? && Client(s, a.c).d == Apply(cfg, s, a).db.deliveries[id]
  {
    match a
    case ByClient(c, op) => ClientFrame(cfg, s, c, op);
    case ByPublisher(p, op) => PublisherFrame(cfg, s, p, op);
    case ByScheduler(k, op) => SchedulerFrame(cfg, s, k, op);
    case ByWorker(w, op) => WorkerFrame(cfg, s, w, op);
    case ByReplay(r, op) => ReplayFrame(cfg, s, r, op);
    case _ =>
  }

  lemma AskedStep(cfg: Config, acts: seq<Action>, more: seq<Action>)
    requires RunFrom(cfg, INIT, more).Some? && more != [] && more[..|more| - 1] == acts && AskedInv(cfg, acts)
    ensures AskedInv(cfg, more)
  {
    var s, t, a := RunFrom(cfg, INIT, acts).value, RunFrom(cfg, INIT, more).value, more[|more| - 1];
    ReachableInv(cfg, s);
    StillAsked(cfg, acts, more);
    forall id | id in t.db.deliveries ensures Asked(cfg, more, t.db.deliveries[id]) {
      RowStillAsked(cfg, acts, more, id);
    }
    forall c | Client(t, c).Committing? ensures Stores(cfg, more, Client(t, c)) {
      ClientStillStores(cfg, s, a, c);
      if a.ByClient? && a.c == c && a.cop.Lookup? { LookupStores(cfg, acts, more, c, a.cop.req); }
    }
  }

  lemma RowStillAsked(cfg: Config, acts: seq<Action>, more: seq<Action>, id: nat)
    requires RunFrom(cfg, INIT, more).Some? && more != [] && more[..|more| - 1] == acts && AskedInv(cfg, acts)
    requires id in RunFrom(cfg, INIT, more).value.db.deliveries && Inv(cfg, RunFrom(cfg, INIT, acts).value)
    ensures Asked(cfg, more, RunFrom(cfg, INIT, more).value.db.deliveries[id])
  {
    var s, t, a := RunFrom(cfg, INIT, acts).value, RunFrom(cfg, INIT, more).value, more[|more| - 1];
    if id in s.db.deliveries {
      IdentityStep(cfg, s, a, id);
      var req, at :| LookedUp(cfg, acts, req, at) && Fits(s.db.deliveries[id], req, at);
      assert LookedUp(cfg, more, req, at) && Fits(t.db.deliveries[id], req, at);
    } else {
      NewRowWasCommitted(cfg, s, a, id);
      var req, at :| Storing(cfg, acts, Client(s, a.c), req, at);
      assert LookedUp(cfg, more, req, at) && Fits(t.db.deliveries[id], req, at);
    }
  }

  lemma {:induction false} RunIsAsked(cfg: Config, acts: seq<Action>)
    requires RunFrom(cfg, INIT, acts).Some?
    ensures AskedInv(cfg, acts)
  {
    if acts != [] {
      RunIsAsked(cfg, acts[..|acts| - 1]);
      AskedStep(cfg, acts[..|acts| - 1], acts);
    }
  }

  // ----- What follows

  /** Every stored row has the key, the priority and the scheduled time of a request, and was made when that was looked up. */
  lemma RowsAreRequested(cfg: Config, acts: seq<Action>, id: nat)
    requires RunFrom(cfg, INIT, acts).Some? && id in RunFrom(cfg, INIT, acts).value.db.deliveries
    ensures var d := RunFrom(cfg, INIT, acts).value.db.deliveries[id];
            exists req, at ::
              && LookedUp(cfg, acts, req, at)
              && d.key == req.key && d.priority == req.priority && d.scheduledAt == req.scheduledAt && d.createdAt == at
  {
    RunIsAsked(cfg, acts);
    var req, at :| LookedUp(cfg, acts, req, at) && Fits(RunFrom(cfg, INIT, acts).value.db.deliveries[id], req, at);
  }

  /**
    A commit of a new key stores a request that was looked up: the whole row, the key row with its expiry, and a
    scheduled row for the requested time if that is still to come, or else an outbox row under its subject.
  */
  lemma CommitStoresTheRequest(cfg: Config, acts: seq<Action>, c: nat)
    requires RunFrom(cfg, INIT, acts).Some?
    requires var s := RunFrom(cfg, INIT, acts).value; Client(s, c).Committing? && Client(s, c).d.key !in s.db.keys
    ensures var s := RunFrom(cfg, INIT, acts).value;
            var t, id := AfterCommit(cfg, s, c), Client(s, c).d.id;
            exists req, at ::
              && LookedUp(cfg, acts, req, at) && StoredAs(cfg, s, t, id, req, at)
              && t.clients == s.clients[c := Answering(Accepted(req.key, id, false))]
  {
    RunIsAsked(cfg, acts);
    var s := RunFrom(cfg, INIT, acts).value;
    var req, at :| Storing(cfg, acts, Client(s, c), req, at);
    CommitStoresAs(cfg, s, c, req, at);
  }

  /** From `s` to `t` the request has been stored as delivery `id`, and nothing else. */
  predicate StoredAs(cfg: Config, s: State, t: State, id: nat, req: Request, at: int) {
    && id in t.db.deliveries && t.db.deliveries == s.db.deliveries[id := t.db.deliveries[id]]
    && MadeOf(t.db.deliveries[id], req, at)
    && t.db.keys == s.db.keys[req.key := KeyRow(id, at + cfg.ttl)] && t.db.attempts == s.db.attempts
    && if req.scheduledAt.Some? && req.scheduledAt.value > at then
         t.db.scheduled == s.db.scheduled[id := ScheduledRow(req.scheduledAt.value, false)] && t.db.outbox == s.db.outbox
       else
         && t.db.scheduled == s.db.scheduled
         && t.db.outbox == s.db.outbox +
                           [OutboxRow(id, Routing.NotificationSubject(cfg.prefix, req.key.channel, req.priority), false, 0)]
  }

  /** A request by itself whose key is new is stored as it is; see `Answers.SoloIngestOutcome` for the others. */
  lemma SoloIngestStores(cfg: Config, s: State, c: nat, req: Request)
    requires Client(s, c).Away? && req.key !in s.db.keys
    ensures StoredAs(cfg, s, Answers.SoloIngest(cfg, s, c, req), s.nextId, req, s.now)
  {
    var s1 := AfterLookup(cfg, s, c, req);
    assert MadeOf(Client(s1, c).d, req, s.now);
    CommitStoresAs(cfg, s1, c, req, s.now);
  }

  lemma CommitStoresAs(cfg: Config, s: State, c: nat, req: Request, at: int)
    requires Client(s, c).Committing? && req.key !in s.db.keys && MadeOf(Client(s, c).d, req, at)
    requires Client(s, c).expiresAt == at + cfg.ttl && (Client(s, c).schedule <==> Client(s, c).d.status == Pending)
    ensures StoredAs(cfg, s, AfterCommit(cfg, s, c), Client(s, c).d.id, req, at)
  {
  }

  /** No provider call happens before the time that its delivery's request asked for, in any deployment. */
  lemma NothingIsSentEarly(cfg: Config, acts: seq<Action>, i: nat)
    requires RunFrom(cfg, INIT, acts).Some? && i < |RunFrom(cfg, INIT, acts).value.log.sends|
    ensures var s := RunFrom(cfg, INIT, acts).value;
            var e := s.log.sends[i];
            && e.delivery in s.db.deliveries && e.at <= s.now
            && exists req, at ::
                 && LookedUp(cfg, acts, req, at) && Fits(s.db.deliveries[e.delivery], req, at)
                 && (req.scheduledAt.Some? ==> req.scheduledAt.value <= e.at)
  {
    var s := RunFrom(cfg, INIT, acts).value;
    var e := s.log.sends[i];
    NoEarlySend(cfg, s, i);
    RunIsAsked(cfg, acts);
    var req, at :| LookedUp(cfg, acts, req, at) && Fits(s.db.deliveries[e.delivery], req, at);
  }

  // ----- The time to live

  ghost predicate KeyTimes(cfg: Config, s: State) {
    && (forall k :: k in s.db.keys ==>
          && s.db.keys[k].delivery in s.db.deliveries
          && s.db.keys[k].expiresAt == s.db.deliveries[s.db.keys[k].delivery].createdAt + cfg.ttl)
    && (forall c :: c in s.clients && s.clients[c].Committing? ==> s.clients[c].expiresAt == s.clients[c].d.createdAt + cfg.ttl)
  }

  lemma ClientKeepsTimes(cfg: Config, s: State, c: nat, op: ClientOp)
    requires KeyTimes(cfg, s) && ClientOk(cfg, s, Client(s, c)) && ClientCan(s, c, op)
    ensures KeyTimes(cfg, ClientDoes(cfg, s, c, op))
  {
    if op.Commit? { CommitKeepsTimes(cfg, s, c); } else { OtherKeepsTimes(cfg, s, c, op); }
  }

  lemma CommitKeepsTimes(cfg: Config, s: State, c: nat)
    requires KeyTimes(cfg, s) && ClientOk(cfg, s, Client(s, c)) && Client(s, c).Committing?
    ensures KeyTimes(cfg, AfterCommit(cfg, s, c))
  {
  }

  lemma OtherKeepsTimes(cfg: Config, s: State, c: nat, op: ClientOp)
    requires KeyTimes(cfg, s) && ClientCan(s, c, op) && !op.Commit?
    ensures KeyTimes(cfg, ClientDoes(cfg, s, c, op))
  {
  }

  lemma StepKeepsTimes(cfg: Config, s: State, a: Action)
    requires Inv(cfg, s) && KeyTimes(cfg, s) && Enabled(cfg, s, a)
    ensures KeyTimes(cfg, Apply(cfg, s, a))
  {
    var t := Apply(cfg, s, a);
    if a.ByClient? {
      ProcessesAt(cfg, s);
      ClientKeepsTimes(cfg, s, a.c, a.cop);
    } else {
      Answers.StepKeepsKeys(cfg, s, a);
      forall k | k in t.db.keys
        ensures t.db.keys[k].delivery in t.db.deliveries
        ensures t.db.keys[k].expiresAt == t.db.deliveries[t.db.keys[k].delivery].createdAt + cfg.ttl
      {
        IdentityStep(cfg, s, a, s.db.keys[k].delivery);
      }
    }
  }

  lemma {:induction false} RunKeepsTimes(cfg: Config, acts: seq<Action>)
    requires RunFrom(cfg, INIT, acts).Some?
    ensures KeyTimes(cfg, RunFrom(cfg, INIT, acts).value)
  {
    if acts != [] {
      var before := acts[..|acts| - 1];
      RunKeepsTimes(cfg, before);
      ReachableInv(cfg, RunFrom(cfg, INIT, before).value);
      StepKeepsTimes(cfg, RunFrom(cfg, INIT, before).value, acts[|acts| - 1]);
    }
  }

  /** In every reachable state a key expires a time to live after its delivery was made. */
  lemma KeysExpireInTime(cfg: Config, s: State, k: Key)
    requires Reachable(cfg, s) && k in s.db.keys
    ensures s.db.keys[k].delivery in s.db.deliveries
    ensures s.db.keys[k].expiresAt == s.db.deliveries[s.db.keys[k].delivery].createdAt + cfg.ttl
  {
    var acts :| RunFrom(cfg, INIT, acts) == Some(s);
    RunKeepsTimes(cfg, acts);
  }

  /**
    A key is refused only a time to live after its delivery was made; until then all answers accept it and name
    that delivery.
  */
  lemma AnswersWithinTheTimeToLive(cfg: Config, s: State, i: nat)
    requires Reachable(cfg, s) && i < |s.log.responses|
    ensures var r := s.log.responses[i];
            && r.key in s.db.keys && s.db.keys[r.key].delivery in s.db.deliveries
            && var d := s.db.deliveries[s.db.keys[r.key].delivery];
               && d.key == r.key
               && (r.Refused? ==> r.at >= d.createdAt + cfg.ttl)
               && (r.Accepted? ==> r.delivery == d.id)
               && (s.now < d.createdAt + cfg.ttl ==> r.Accepted?)
  {
    var r := s.log.responses[i];
    Answers.AnswersAreRight(cfg, s, i);
    KeysExpireInTime(cfg, s, r.key);
    ReachableInv(cfg, s);
    assert HasKey(s.db, s.db.keys[r.key].delivery, r.key) && RowOk(cfg, s, s.db.keys[r.key].delivery);
  }

  /** In every reachable state a request for a used key is a duplicate exactly for a time to live after its delivery was made. */
  lemma DuplicatesInTime(cfg: Config, s: State, c: nat, req: Request)
    requires Reachable(cfg, s) && Client(s, c).Away? && req.key in s.db.keys
    ensures var id := s.db.keys[req.key].delivery;
            && id in s.db.deliveries
            && Client(Answers.SoloIngest(cfg, s, c, req), c) ==
               Answering(if s.now < s.db.deliveries[id].createdAt + cfg.ttl then Accepted(req.key, id, true) else Refused(req.key, s.now))
  {
    KeysExpireInTime(cfg, s, req.key);
    Answers.SoloIngestOutcome(cfg, s, c, req);
  }
}
