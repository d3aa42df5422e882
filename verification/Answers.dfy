/**
  What ingest clients are told, over every interleaving of any number of them:
  an idempotency key belongs to one delivery forever, every acceptance names it,
  and one acceptance at most is not marked as a duplicate.
*/
module Answers {
  import opened Wrappers
  import opened Notification
  import opened Protocol
  import opened Frames

  predicate IsFresh(r: Response) {
    r.Accepted? && !r.duplicate
  }

  ghost predicate AnswerOk(s: State, r: Response) {
    && r.key in s.db.keys
    && (r.Accepted? ==> s.db.keys[r.key].delivery == r.delivery)
    && (r.Refused? ==> s.db.keys[r.key].expiresAt <= r.at <= s.now)
  }

  ghost predicate ClientAnswerOk(s: State, pc: ClientPc) {
    && (pc.Answering? ==> AnswerOk(s, pc.response))
    && (pc.Rechecking? ==> pc.key in s.db.keys)
  }

  predicate AnswersFresh(pc: ClientPc) {
    pc.Answering? && IsFresh(pc.response)
  }

  ghost predicate AnswersInv(s: State) {
    && (forall i :: 0 <= i < |s.log.responses| ==> AnswerOk(s, s.log.responses[i]))
    && (forall c :: c in s.clients ==> ClientAnswerOk(s, s.clients[c]))
  }

  /** Fresh acceptances, given or about to be given, are for different keys. */
  ghost predicate FreshInv(s: State) {
    && (forall i, j :: 0 <= i < j < |s.log.responses| && IsFresh(s.log.responses[i]) && IsFresh(s.log.responses[j]) ==>
          s.log.responses[i].key != s.log.responses[j].key)
    && (forall i, c :: 0 <= i < |s.log.responses| && IsFresh(s.log.responses[i]) && c in s.clients && AnswersFresh(s.clients[c]) ==>
          s.log.responses[i].key != s.clients[c].response.key)
    && (forall b, c :: b in s.clients && c in s.clients && b != c && AnswersFresh(s.clients[b]) && AnswersFresh(s.clients[c]) ==>
          s.clients[b].response.key != s.clients[c].response.key)
  }

  /** Keys are written once and time does not go back. */
  ghost predicate KeysKept(s: State, t: State) {
    && s.now <= t.now
    && forall k :: k in s.db.keys ==> k in t.db.keys && t.db.keys[k] == s.db.keys[k]
  }

  lemma StepKeepsKeys(cfg: Config, s: State, a: Action)
    requires Enabled(cfg, s, a) && !a.ByClient?
    ensures var t := Apply(cfg, s, a);
            s.now <= t.now && t.db.keys == s.db.keys && t.clients == s.clients && t.log.responses == s.log.responses
  {
    match a
    case ByWorker(w, op) => WorkerFrame(cfg, s, w, op);
    case ByScheduler(k, op) => SchedulerFrame(cfg, s, k, op);
    case ByPublisher(p, op) => PublisherFrame(cfg, s, p, op);
    case ByReplay(r, op) => ReplayFrame(cfg, s, r, op);
    case _ =>
  }

  lemma ClientAnswers(cfg: Config, s: State, c: nat, op: ClientOp)
    requires ClientCan(s, c, op) && ClientAnswerOk(s, Client(s, c)) && !op.Commit?
    ensures var t := ClientDoes(cfg, s, c, op);
            ClientAnswerOk(t, t.clients[c]) && (op.Answer? ==> AnswerOk(t, Client(s, c).response))
  {
  }

  lemma CommitAnswers(cfg: Config, s: State, c: nat)
    requires Client(s, c).Committing?
    ensures var t := AfterCommit(cfg, s, c);
            ClientAnswerOk(t, t.clients[c])
  {
    var t, key := AfterCommit(cfg, s, c), Client(s, c).d.key;
    assert key in t.db.keys;
  }

  lemma ClientKeepsAnswers(cfg: Config, s: State, c: nat, op: ClientOp)
    requires AnswersInv(s) && ClientCan(s, c, op)
    ensures AnswersInv(ClientDoes(cfg, s, c, op))
  {
    assert ClientAnswerOk(s, Client(s, c));
    ClientFrame(cfg, s, c, op);
    if op.Commit? { CommitAnswers(cfg, s, c); } else { ClientAnswers(cfg, s, c, op); }
    AnswersFrame(s, ClientDoes(cfg, s, c, op));
  }

  lemma AnswersFrame(s: State, t: State)
    requires AnswersInv(s) && KeysKept(s, t)
    requires forall b :: b in t.clients ==> (b in s.clients && t.clients[b] == s.clients[b]) || ClientAnswerOk(t, t.clients[b])
    requires forall i :: 0 <= i < |t.log.responses| ==>
               (i < |s.log.responses| && t.log.responses[i] == s.log.responses[i]) || AnswerOk(t, t.log.responses[i])
    ensures AnswersInv(t)
  {
    forall i | 0 <= i < |t.log.responses| ensures AnswerOk(t, t.log.responses[i]) {
      if i < |s.log.responses| { assert AnswerOk(s, s.log.responses[i]); }
    }
    forall b | b in t.clients ensures ClientAnswerOk(t, t.clients[b]) {
      if b in s.clients { assert ClientAnswerOk(s, s.clients[b]); }
    }
  }

  /** A newly registered key has been answered to nobody yet. */
  lemma NewKeyIsUnanswered(s: State, k: Key)
    requires AnswersInv(s) && k !in s.db.keys
    ensures forall i :: 0 <= i < |s.log.responses| ==> s.log.responses[i].key != k
    ensures forall b :: b in s.clients && s.clients[b].Answering? ==> s.clients[b].response.key != k
  {
    forall i | 0 <= i < |s.log.responses| ensures s.log.responses[i].key != k {
      assert AnswerOk(s, s.log.responses[i]);
    }
    forall b | b in s.clients && s.clients[b].Answering? ensures s.clients[b].response.key != k {
      assert ClientAnswerOk(s, s.clients[b]);
    }
  }

  lemma CommitKeepsFresh(cfg: Config, s: State, c: nat)
    requires AnswersInv(s) && FreshInv(s) && Client(s, c).Committing?
    ensures FreshInv(AfterCommit(cfg, s, c))
  {
    if Client(s, c).d.key !in s.db.keys { NewKeyIsUnanswered(s, Client(s, c).d.key); }
  }

  lemma ClientKeepsFresh(cfg: Config, s: State, c: nat, op: ClientOp)
    requires FreshInv(s) && ClientCan(s, c, op) && !op.Commit?
    ensures FreshInv(ClientDoes(cfg, s, c, op))
  {
  }

  lemma StepKeepsAnswers(cfg: Config, s: State, a: Action)
    requires AnswersInv(s) && FreshInv(s) && Enabled(cfg, s, a)
    ensures AnswersInv(Apply(cfg, s, a)) && FreshInv(Apply(cfg, s, a))
  {
    var t := Apply(cfg, s, a);
    if a.ByClient? {
      ClientKeepsAnswers(cfg, s, a.c, a.cop);
      if a.cop.Commit? { CommitKeepsFresh(cfg, s, a.c); } else { ClientKeepsFresh(cfg, s, a.c, a.cop); }
    } else {
      StepKeepsKeys(cfg, s, a);
      AnswersFrame(s, t);
    }
  }

  lemma {:induction false} RunKeepsAnswers(cfg: Config, acts: seq<Action>)
    requires RunFrom(cfg, INIT, acts).Some?
    ensures AnswersInv(RunFrom(cfg, INIT, acts).value) && FreshInv(RunFrom(cfg, INIT, acts).value)
  {
    if acts != [] {
      var before := acts[..|acts| - 1];
      RunKeepsAnswers(cfg, before);
      StepKeepsAnswers(cfg, RunFrom(cfg, INIT, before).value, acts[|acts| - 1]);
    }
  }

  /** All acceptances of a key name one delivery, and at most one is fresh. */
  lemma AnswersAgree(cfg: Config, s: State, i: nat, j: nat)
    requires Reachable(cfg, s) && i < j < |s.log.responses| && s.log.responses[i].key == s.log.responses[j].key
    ensures var x, y := s.log.responses[i], s.log.responses[j];
            x.Accepted? && y.Accepted? ==> x.delivery == y.delivery && (x.duplicate || y.duplicate)
  {
    var acts :| RunFrom(cfg, INIT, acts) == Some(s);
    RunKeepsAnswers(cfg, acts);
    assert AnswerOk(s, s.log.responses[i]) && AnswerOk(s, s.log.responses[j]);
  }

  /** Every answered key is registered; an acceptance names its delivery, and a refusal was decided when the key had expired. */
  lemma AnswersAreRight(cfg: Config, s: State, i: nat)
    requires Reachable(cfg, s) && i < |s.log.responses|
    ensures var x := s.log.responses[i];
            && x.key in s.db.keys
            && (x.Accepted? ==> s.db.keys[x.key].delivery == x.delivery)
            && (x.Refused? ==> s.db.keys[x.key].expiresAt <= x.at <= s.now)
  {
    var acts :| RunFrom(cfg, INIT, acts) == Some(s);
    RunKeepsAnswers(cfg, acts);
    assert AnswerOk(s, s.log.responses[i]);
  }

  // ----- Exactly one winner

  /** No client gives up or loses its connection. */
  ghost predicate NobodyAbandons(acts: seq<Action>) {
    forall i :: 0 <= i < |acts| ==> !(acts[i].ByClient? && acts[i].cop.Abandon?)
  }

  predicate FreshFor(r: Response, k: Key) {
    IsFresh(r) && r.key == k
  }

  predicate FreshAt(pc: ClientPc, k: Key) {
    pc.Answering? && FreshFor(pc.response, k)
  }

  ghost predicate HasWinner(s: State, k: Key) {
    || (exists i :: 0 <= i < |s.log.responses| && FreshFor(s.log.responses[i], k))
    || (exists c :: c in s.clients && FreshAt(s.clients[c], k))
  }

  lemma WinnerStep(cfg: Config, s: State, a: Action, k: Key)
    requires Enabled(cfg, s, a) && !(a.ByClient? && a.cop.Abandon?)
    requires HasWinner(s, k) || k !in s.db.keys
    ensures HasWinner(Apply(cfg, s, a), k) || k !in Apply(cfg, s, a).db.keys
  {
    var t := Apply(cfg, s, a);
    if a.ByClient? {
      WinnerClientStep(cfg, s, a.c, a.cop, k);
    } else {
      StepKeepsKeys(cfg, s, a);
    }
  }

  lemma WinnerClientStep(cfg: Config, s: State, c: nat, op: ClientOp, k: Key)
    requires ClientCan(s, c, op) && !op.Abandon?
    requires HasWinner(s, k) || k !in s.db.keys
    ensures var t := ClientDoes(cfg, s, c, op);
            HasWinner(t, k) || k !in t.db.keys
  {
    var t := ClientDoes(cfg, s, c, op);
    if i :| 0 <= i < |s.log.responses| && FreshFor(s.log.responses[i], k) {
      assert FreshFor(t.log.responses[i], k);
    } else if b :| b in s.clients && FreshAt(s.clients[b], k) {
      if b != c {
        assert FreshAt(t.clients[b], k);
      } else {
        assert FreshFor(t.log.responses[|s.log.responses|], k);
      }
    } else if k in t.db.keys {
      assert FreshAt(t.clients[c], k);
    }
  }

  lemma {:induction false} RunHasWinners(cfg: Config, acts: seq<Action>, k: Key)
    requires RunFrom(cfg, INIT, acts).Some? && NobodyAbandons(acts)
    requires k in RunFrom(cfg, INIT, acts).value.db.keys
    ensures HasWinner(RunFrom(cfg, INIT, acts).value, k)
  {
    if acts != [] {
      var before := acts[..|acts| - 1];
      var s := RunFrom(cfg, INIT, before).value;
      if k in s.db.keys { RunHasWinners(cfg, before, k); }
      assert !(acts[|acts| - 1].ByClient? && acts[|acts| - 1].cop.Abandon?);
      WinnerStep(cfg, s, acts[|acts| - 1], k);
    }
  }

  /** When every client has been answered, a registered key has exactly one fresh acceptance. */
  lemma ExactlyOneWinner(cfg: Config, acts: seq<Action>, k: Key) returns (winner: nat)
    requires RunFrom(cfg, INIT, acts).Some? && NobodyAbandons(acts)
    requires var s := RunFrom(cfg, INIT, acts).value;
             k in s.db.keys && forall c :: Client(s, c).Away?
    ensures var s := RunFrom(cfg, INIT, acts).value;
            && winner < |s.log.responses|
            && s.log.responses[winner] == Accepted(k, s.db.keys[k].delivery, false)
            && forall i :: 0 <= i < |s.log.responses| && i != winner && s.log.responses[i].key == k ==>
                             s.log.responses[i] == Accepted(k, s.db.keys[k].delivery, true)
                             || (s.log.responses[i].Refused? && s.db.keys[k].expiresAt <= s.log.responses[i].at)
  {
    var s := RunFrom(cfg, INIT, acts).value;
    RunKeepsAnswers(cfg, acts);
    RunHasWinners(cfg, acts, k);
    assert forall c :: c in s.clients ==> Client(s, c) == s.clients[c];
    winner :| 0 <= winner < |s.log.responses| && FreshFor(s.log.responses[winner], k);
    assert AnswerOk(s, s.log.responses[winner]);
    forall i | 0 <= i < |s.log.responses| && i != winner && s.log.responses[i].key == k
      ensures s.log.responses[i] == Accepted(k, s.db.keys[k].delivery, true)
              || (s.log.responses[i].Refused? && s.db.keys[k].expiresAt <= s.log.responses[i].at)
    {
      assert AnswerOk(s, s.log.responses[i]);
      assert !FreshFor(s.log.responses[i], k);
    }
  }

  // ----- One request by itself

  /** Ingest from lookup to answer, with no other process in between. */
  ghost function SoloIngest(cfg: Config, s: State, c: nat, req: Request): (t: State)
    requires Client(s, c).Away?
    ensures Client(t, c).Answering?
  {
    var s1 := AfterLookup(cfg, s, c, req);
    if Client(s1, c).Committing? then SoloStore(cfg, s1, c) else s1
  }

  ghost function SoloStore(cfg: Config, s: State, c: nat): (t: State)
    requires Client(s, c).Committing?
    ensures Client(t, c).Answering?
  {
    var s1 := AfterCommit(cfg, s, c);
    if Client(s1, c).Rechecking? then AfterRecheck(s1, c) else s1
  }

  /**
    A request creates a delivery exactly when its key was never used, is answered as a duplicate exactly
    when the key is registered and unexpired, and is refused, changing nothing, exactly when the key has
    expired: keys are not reusable after their time to live.
  */
  lemma SoloIngestOutcome(cfg: Config, s: State, c: nat, req: Request)
    requires Client(s, c).Away?
    ensures var t := SoloIngest(cfg, s, c, req);
            && Client(t, c).Answering?
            && var answer := Client(t, c).response;
               && (answer == Accepted(req.key, s.nextId, false) && t.db != s.db <==> req.key !in s.db.keys)
               && (answer.Accepted? && answer.duplicate <==> req.key in s.db.keys && s.db.keys[req.key].expiresAt > s.now)
               && (answer == Refused(req.key, s.now) <==> req.key in s.db.keys && s.db.keys[req.key].expiresAt <= s.now)
               && (req.key in s.db.keys ==> t.db == s.db)
               && (answer.Accepted? ==> req.key in t.db.keys && t.db.keys[req.key].delivery == answer.delivery)
  {
    var t := SoloIngest(cfg, s, c, req);
    if req.key !in s.db.keys { assert req.key in t.db.keys; }
  }
}
