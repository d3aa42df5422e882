/**
  The inductive invariant of the delivery protocol, and that every action of
  every process keeps it, in every deployment. Its exclusive parts, the ones
  under `Sound`, hold where there is one scheduler and replays of one delivery
  do not overlap; the rest needs no such condition.
*/
module Safety {
  import opened Wrappers
  import opened Notification
  import opened Protocol

  /** The two operational conditions under which the unguarded updates are safe. */
  predicate Sound(cfg: Config) {
    cfg.oneScheduler && cfg.serialReplays
  }

  function RetryLimit(cfg: Config): int {
    if cfg.maxAttempts < 1 then 1 else cfg.maxAttempts
  }

  // ----- The database

  ghost predicate RowOk(cfg: Config, s: State, id: nat)
    requires id in s.db.deliveries
  {
    var d := s.db.deliveries[id];
    && d.id == id < s.nextId
    && d.key in s.db.keys && s.db.keys[d.key].delivery == id
    && d.status in {Pending, Queued, Processing, Retrying, Succeeded, Dlq}
    && 0 <= d.retryCount < RetryLimit(cfg)
    && (d.status == Pending ==> id in s.db.scheduled && !s.db.scheduled[id].processed)
    && (d.status != Pending ==> Due(d, s.now))
  }

  /** A delivery the outbox or the broker may mention: stored, promoted and addressed correctly. */
  ghost predicate Released(cfg: Config, db: Db, id: nat, subject: string) {
    && id in db.deliveries
    && db.deliveries[id].status != Pending
    && subject == SubjectOf(cfg, db.deliveries[id])
  }

  ghost predicate Announced(bus: Bus, id: nat) {
    exists m :: 0 <= m < |bus.stream| && bus.stream[m].delivery == id
  }

  ghost predicate RowsInv(cfg: Config, s: State) {
    && (forall id :: id in s.db.deliveries ==> RowOk(cfg, s, id))
    && (forall k :: k in s.db.keys ==> HasKey(s.db, s.db.keys[k].delivery, k))
    && (forall id :: id in s.db.scheduled ==>
          id in s.db.deliveries && s.db.deliveries[id].scheduledAt == Some(s.db.scheduled[id].at))
  }

  ghost predicate HasKey(db: Db, id: nat, k: Key) {
    id in db.deliveries && db.deliveries[id].key == k
  }

  ghost predicate OutboxInv(cfg: Config, s: State) {
    && (forall r :: 0 <= r < |s.db.outbox| ==> Released(cfg, s.db, s.db.outbox[r].delivery, s.db.outbox[r].subject))
    && (cfg.oneScheduler ==>
          forall q, r :: 0 <= q < r < |s.db.outbox| ==> s.db.outbox[q].delivery != s.db.outbox[r].delivery)
    && (forall m :: 0 <= m < |s.bus.stream| ==> Released(cfg, s.db, s.bus.stream[m].delivery, s.bus.stream[m].subject))
    && (forall r :: 0 <= r < |s.db.outbox| && s.db.outbox[r].published ==> Announced(s.bus, s.db.outbox[r].delivery))
  }

  // ----- Processes

  /** `d` is a version of the stored row: the columns that no update writes agree. */
  ghost predicate VersionOf(cfg: Config, s: State, d: Row) {
    && d.id in s.db.deliveries && SameIdentity(d, s.db.deliveries[d.id])
    && 0 <= d.retryCount < RetryLimit(cfg)
  }

  ghost predicate Promoted(s: State, id: nat) {
    id in s.db.deliveries && s.db.deliveries[id].status != Pending
  }

  ghost predicate StageOk(cfg: Config, pc: WorkerPc)
    requires pc.Owning?
  {
    && pc.d.retryCount < RetryLimit(cfg)
    && SameIdentity(pc.d, pc.base)
    && match pc.stage
       case Gating => pc.d == pc.base
       case Sending => pc.d == pc.base && pc.attempt == Some(NewAttempt(pc.base))
       case SavingSuccess => pc.d.status == Succeeded && pc.d.retryCount == pc.base.retryCount && pc.attempt.Some?
       case SavingRetry =>
         pc.d.status == Retrying && pc.d.retryCount == pc.base.retryCount + 1 < cfg.maxAttempts && pc.attempt.Some?
       case _ => pc.d.status == Dlq && pc.d.retryCount == pc.base.retryCount && (pc.stage == RecordingDlq ==> pc.attempt.Some?)
  }

  ghost predicate WorkerOk(cfg: Config, s: State, pc: WorkerPc) {
    && (!pc.Free? ==> IsCopy(cfg, s.bus, pc.copy))
    && match pc
       case Claiming(copy, d, prev) =>
         && VersionOf(cfg, s, d) && Promoted(s, d.id)
         && d.id == s.bus.stream[copy.msg].delivery && d.status == Processing && CanStart(prev)
       case Owning(copy, d, base, attempt, stage) =>
         && VersionOf(cfg, s, base) && Promoted(s, base.id)
         && d.id == s.bus.stream[copy.msg].delivery && base.status == Processing
         && (Sound(cfg) ==> s.db.deliveries[base.id] == base)
         && StageOk(cfg, pc)
       case _ => true
  }

  predicate Owns(pc: WorkerPc, id: nat) {
    pc.Owning? && pc.d.id == id
  }

  ghost predicate WorkersInv(cfg: Config, s: State) {
    && (forall w :: w in s.workers ==> WorkerOk(cfg, s, s.workers[w]))
    && (Sound(cfg) ==>
          forall v, w | v in s.workers && w in s.workers && s.workers[v].Owning? && s.workers[w].Owning? ::
            s.workers[v].d.id == s.workers[w].d.id ==> v == w)
  }

  ghost predicate ScheduledBy(s: State, id: nat, started: int) {
    id in s.db.scheduled && s.db.scheduled[id].at <= started
  }

  ghost predicate NoOutboxRow(db: Db, id: nat) {
    forall r :: 0 <= r < |db.outbox| ==> db.outbox[r].delivery != id
  }

  ghost predicate SchedulerOk(cfg: Config, s: State, pc: SchedulerPc) {
    && (!pc.Sleeping? ==>
          && pc.started <= s.now
          && forall i :: 0 <= i < |pc.todo| ==> ScheduledBy(s, pc.todo[i], pc.started))
    && match pc
       case Promoting(started, todo, d) =>
         && VersionOf(cfg, s, d) && ScheduledBy(s, d.id, started) && d.status == Queued
         && (cfg.oneScheduler ==>
               d == Stamped(s.db.deliveries[d.id], Queued, started) && s.db.deliveries[d.id].status == Pending)
       case Enqueuing(started, todo, d) =>
         VersionOf(cfg, s, d) && Promoted(s, d.id) && (cfg.oneScheduler ==> NoOutboxRow(s.db, d.id))
       case Finishing(started, todo, id) => Promoted(s, id)
       case _ => true
  }

  ghost predicate SchedulersInv(cfg: Config, s: State) {
    forall k :: k in s.schedulers ==>
      SchedulerOk(cfg, s, s.schedulers[k]) && (cfg.oneScheduler && k != 0 ==> s.schedulers[k].Sleeping?)
  }

  ghost predicate ReplayOk(cfg: Config, s: State, pc: ReplayPc) {
    match pc
    case Saving(d) =>
      && VersionOf(cfg, s, d) && Promoted(s, d.id) && d.status == Queued && d.retryCount == 0
      && (Sound(cfg) ==> s.db.deliveries[d.id].status == Dlq)
    case Announcing(id, subject) => Released(cfg, s.db, id, subject)
    case Off => true
  }

  ghost predicate ReplaysInv(cfg: Config, s: State) {
    && (forall r :: r in s.replays ==> ReplayOk(cfg, s, s.replays[r]))
    && (Sound(cfg) ==>
          forall q, r | q in s.replays && r in s.replays && s.replays[q].Saving? && s.replays[r].Saving? ::
            s.replays[q].d.id == s.replays[r].d.id ==> q == r)
  }

  ghost predicate PublisherOk(s: State, pc: PublisherPc) {
    && (!pc.Waiting? ==> forall i :: 0 <= i < |pc.todo| ==> pc.todo[i] < |s.db.outbox|)
    && (pc.Publishing? || pc.Marking? || pc.Failing? ==> pc.row < |s.db.outbox|)
    && (pc.Marking? ==> Announced(s.bus, s.db.outbox[pc.row].delivery))
  }

  ghost predicate PublishersInv(s: State) {
    forall p :: p in s.publishers ==> PublisherOk(s, s.publishers[p])
  }

  ghost predicate ClientOk(cfg: Config, s: State, pc: ClientPc) {
    pc.Committing? ==>
      && pc.d.id < s.nextId && pc.d.id !in s.db.deliveries && pc.d.id !in s.db.scheduled
      && pc.d.retryCount == 0
      && (if pc.schedule then pc.d.status == Pending && pc.d.scheduledAt.Some?
          else pc.d.status == Queued && Due(pc.d, s.now))
  }

  ghost predicate ClientsInv(cfg: Config, s: State) {
    && (forall c :: c in s.clients ==> ClientOk(cfg, s, s.clients[c]))
    && (forall b, c | b in s.clients && c in s.clients && s.clients[b].Committing? && s.clients[c].Committing? ::
          s.clients[b].d.id == s.clients[c].d.id ==> b == c)
  }

  // ----- The outside world

  ghost predicate EventOk(cfg: Config, s: State, e: SendEvent) {
    && Promoted(s, e.delivery)
    && e.at <= s.now
    && Due(s.db.deliveries[e.delivery], e.at)
    && (Sound(cfg) && e.ok ==> DoneSending(s, e.delivery))
  }

  /** A delivery the provider has accepted: stored as succeeded, or being processed by nobody who would send again. */
  ghost predicate DoneSending(s: State, id: nat) {
    && (HasStatus(s.db, id, Succeeded) || HasStatus(s.db, id, Processing))
    && (forall w :: w in s.workers && Owns(s.workers[w], id) ==> s.workers[w].stage == SavingSuccess)
  }

  ghost predicate LogInv(cfg: Config, s: State) {
    && (forall i :: 0 <= i < |s.log.sends| ==> EventOk(cfg, s, s.log.sends[i]))
    && (Sound(cfg) ==>
          forall i, j :: 0 <= i < j < |s.log.sends| && s.log.sends[i].ok && s.log.sends[j].ok ==>
            s.log.sends[i].delivery != s.log.sends[j].delivery)
  }

  ghost predicate Inv(cfg: Config, s: State) {
    && RowsInv(cfg, s)
    && OutboxInv(cfg, s)
    && WorkersInv(cfg, s)
    && SchedulersInv(cfg, s)
    && ReplaysInv(cfg, s)
    && PublishersInv(s)
    && ClientsInv(cfg, s)
    && LogInv(cfg, s)
  }


  // ----- Frames: what one process keeps while another acts

  /** Nothing is forgotten: what every action guarantees to every other process. */
  ghost predicate Keeps(s: State, t: State) {
    && s.now <= t.now && s.nextId <= t.nextId
    && (forall id :: id in s.db.deliveries ==>
          && id in t.db.deliveries
          && SameIdentity(s.db.deliveries[id], t.db.deliveries[id])
          && (s.db.deliveries[id].status != Pending ==> t.db.deliveries[id].status != Pending))
    && (forall id :: id in s.db.scheduled ==>
          id in t.db.scheduled && t.db.scheduled[id].at == s.db.scheduled[id].at)
    && |s.db.outbox| <= |t.db.outbox|
    && (forall r :: 0 <= r < |s.db.outbox| ==>
          t.db.outbox[r].delivery == s.db.outbox[r].delivery && t.db.outbox[r].subject == s.db.outbox[r].subject)
    && |s.bus.stream| <= |t.bus.stream|
    && (forall m :: 0 <= m < |s.bus.stream| ==> t.bus.stream[m] == s.bus.stream[m])
  }

  /** All stored rows but that of `c` are as before. */
  ghost predicate RowsKept(s: State, t: State, c: nat) {
    forall id :: id in s.db.deliveries && id != c ==> id in t.db.deliveries && t.db.deliveries[id] == s.db.deliveries[id]
  }

  ghost predicate OnlyAt<T>(a: map<nat, T>, b: map<nat, T>, x: nat) {
    forall y :: y in b && y != x ==> y in a && b[y] == a[y]
  }

  /** The new program counter of `w` is in order, and it owns nothing that it may not. */
  ghost predicate WorkerLands(cfg: Config, s: State, t: State, w: nat) {
    && w in t.workers && WorkerOk(cfg, t, t.workers[w])
    && (Sound(cfg) && t.workers[w].Owning? ==>
          || (w in s.workers && Owns(s.workers[w], t.workers[w].d.id))
          || !HasStatus(s.db, t.workers[w].d.id, Processing))
  }

  lemma AnnouncedKept(s: State, t: State, id: nat)
    requires Keeps(s, t) && Announced(s.bus, id)
    ensures Announced(t.bus, id)
  {
    var m :| 0 <= m < |s.bus.stream| && s.bus.stream[m].delivery == id;
    assert t.bus.stream[m].delivery == id;
  }

  lemma WorkersFrame(cfg: Config, s: State, t: State, c: nat, w: nat)
    requires WorkersInv(cfg, s) && Keeps(s, t) && RowsKept(s, t, c) && OnlyAt(s.workers, t.workers, w)
    requires Sound(cfg) && HasStatus(s.db, c, Processing) ==> w in s.workers && Owns(s.workers[w], c)
    requires WorkerLands(cfg, s, t, w) || (t.workers == s.workers && (Sound(cfg) ==> !HasStatus(s.db, c, Processing)))
    ensures WorkersInv(cfg, t)
  {
    forall v | v in t.workers ensures WorkerOk(cfg, t, t.workers[v]) {
      if v != w || t.workers == s.workers {
        assert WorkerOk(cfg, s, s.workers[v]);
      }
    }
  }

  lemma SchedulersFrame(cfg: Config, s: State, t: State, c: nat)
    requires SchedulersInv(cfg, s) && Keeps(s, t) && RowsKept(s, t, c) && t.schedulers == s.schedulers
    requires cfg.oneScheduler ==> !HasStatus(s.db, c, Pending)
    requires forall r :: |s.db.outbox| <= r < |t.db.outbox| ==> t.db.outbox[r].delivery !in s.db.deliveries
    ensures SchedulersInv(cfg, t)
  {
    forall k | k in t.schedulers ensures SchedulerOk(cfg, t, t.schedulers[k]) {
      assert SchedulerOk(cfg, s, s.schedulers[k]);
    }
  }

  lemma ReplaysFrame(cfg: Config, s: State, t: State, c: nat)
    requires ReplaysInv(cfg, s) && Keeps(s, t) && RowsKept(s, t, c) && t.replays == s.replays
    requires Sound(cfg) ==> !HasStatus(s.db, c, Dlq)
    ensures ReplaysInv(cfg, t)
  {
    forall r | r in t.replays ensures ReplayOk(cfg, t, t.replays[r]) {
      assert ReplayOk(cfg, s, s.replays[r]);
    }
  }

  lemma PublishersFrame(s: State, t: State, p: nat)
    requires PublishersInv(s) && Keeps(s, t) && OnlyAt(s.publishers, t.publishers, p)
    requires t.publishers == s.publishers || (p in t.publishers ==> PublisherOk(t, t.publishers[p]))
    ensures PublishersInv(t)
  {
    forall q | q in t.publishers ensures PublisherOk(t, t.publishers[q]) {
      if q != p || t.publishers == s.publishers {
        var pc := s.publishers[q];
        assert PublisherOk(s, pc);
        if pc.Marking? { AnnouncedKept(s, t, s.db.outbox[pc.row].delivery); }
      }
    }
  }

  lemma ClientsFrame(cfg: Config, s: State, t: State)
    requires ClientsInv(cfg, s) && Keeps(s, t) && t.clients == s.clients
    requires t.db.deliveries.Keys == s.db.deliveries.Keys && t.db.scheduled.Keys == s.db.scheduled.Keys
    ensures ClientsInv(cfg, t)
  {
    forall c | c in t.clients ensures ClientOk(cfg, t, t.clients[c]) {
      assert ClientOk(cfg, s, s.clients[c]);
    }
  }

  lemma LogFrame(cfg: Config, s: State, t: State)
    requires LogInv(cfg, s) && Keeps(s, t) && t.log == s.log
    requires Sound(cfg) ==> forall id :: DoneSending(s, id) ==> DoneSending(t, id)
    ensures LogInv(cfg, t)
  {
    forall i | 0 <= i < |t.log.sends| ensures EventOk(cfg, t, t.log.sends[i]) {
      assert EventOk(cfg, s, s.log.sends[i]);
    }
  }

  /** A write to the single row `c` that leaves the rest of the database alone. */
  lemma RowsFrame(cfg: Config, s: State, t: State, c: nat)
    requires RowsInv(cfg, s) && Keeps(s, t) && RowsKept(s, t, c)
    requires t.db.keys == s.db.keys && t.db.scheduled == s.db.scheduled
    requires t.db.deliveries.Keys == s.db.deliveries.Keys
    requires c in t.db.deliveries ==> RowOk(cfg, t, c)
    ensures RowsInv(cfg, t)
  {
    forall id | id in t.db.deliveries ensures RowOk(cfg, t, id) {
      assert RowOk(cfg, s, id);
    }
    forall k | k in t.db.keys ensures HasKey(t.db, t.db.keys[k].delivery, k) {
      assert HasKey(s.db, s.db.keys[k].delivery, k);
    }
  }

  lemma OutboxFrame(cfg: Config, s: State, t: State)
    requires OutboxInv(cfg, s) && Keeps(s, t)
    requires t.db.outbox == s.db.outbox
    requires t.bus.stream == s.bus.stream
    ensures OutboxInv(cfg, t)
  {
    forall r | 0 <= r < |t.db.outbox| ensures Released(cfg, t.db, t.db.outbox[r].delivery, t.db.outbox[r].subject) {
      assert Released(cfg, s.db, s.db.outbox[r].delivery, s.db.outbox[r].subject);
    }
    forall m | 0 <= m < |t.bus.stream| ensures Released(cfg, t.db, t.bus.stream[m].delivery, t.bus.stream[m].subject) {
      assert Released(cfg, s.db, s.bus.stream[m].delivery, s.bus.stream[m].subject);
    }
    forall r | 0 <= r < |t.db.outbox| && t.db.outbox[r].published ensures Announced(t.bus, t.db.outbox[r].delivery) {
      AnnouncedKept(s, t, s.db.outbox[r].delivery);
    }
  }

  // ----- Workers

  /** A step of worker `w` that writes at most the row `c`, which the worker may write. */
  ghost predicate WorkerStep(cfg: Config, s: State, t: State, w: nat, c: nat) {
    && t == s.(db := t.db, bus := t.bus, workers := t.workers, log := t.log)
    && t.db == s.db.(deliveries := t.db.deliveries, attempts := t.db.attempts)
    && t.bus.stream == s.bus.stream
    && t.db.deliveries.Keys == s.db.deliveries.Keys
    && OnlyAt(s.workers, t.workers, w)
    && RowsKept(s, t, c)
    && (c in s.db.deliveries ==>
          && s.db.deliveries[c].status != Pending
          && t.db.deliveries[c].status != Pending
          && SameIdentity(s.db.deliveries[c], t.db.deliveries[c])
          && (Sound(cfg) ==>
                && s.db.deliveries[c].status != Dlq
                && (HasStatus(s.db, c, Processing) ==> w in s.workers && Owns(s.workers[w], c))))
  }

  lemma WorkerStepKeeps(cfg: Config, s: State, t: State, w: nat, c: nat)
    requires WorkerStep(cfg, s, t, w, c)
    ensures Keeps(s, t)
  {
  }

  lemma WorkerStepTables(cfg: Config, s: State, t: State, w: nat, c: nat)
    requires RowsInv(cfg, s) && OutboxInv(cfg, s) && WorkerStep(cfg, s, t, w, c)
    requires c in t.db.deliveries ==> RowOk(cfg, t, c)
    ensures RowsInv(cfg, t) && OutboxInv(cfg, t)
  {
    WorkerStepKeeps(cfg, s, t, w, c);
    RowsFrame(cfg, s, t, c);
    OutboxFrame(cfg, s, t);
  }

  lemma WorkerStepOthers(cfg: Config, s: State, t: State, w: nat, c: nat)
    requires SchedulersInv(cfg, s) && ReplaysInv(cfg, s) && PublishersInv(s) && ClientsInv(cfg, s)
    requires WorkerStep(cfg, s, t, w, c)
    ensures SchedulersInv(cfg, t) && ReplaysInv(cfg, t) && PublishersInv(t) && ClientsInv(cfg, t)
  {
    WorkerStepKeeps(cfg, s, t, w, c);
    SchedulersFrame(cfg, s, t, c);
    ReplaysFrame(cfg, s, t, c);
    PublishersFrame(s, t, 0);
    ClientsFrame(cfg, s, t);
  }

  lemma WorkerStepFrame(cfg: Config, s: State, t: State, w: nat, c: nat)
    requires Inv(cfg, s) && WorkerStep(cfg, s, t, w, c) && WorkerLands(cfg, s, t, w)
    requires c in t.db.deliveries ==> RowOk(cfg, t, c)
    ensures Keeps(s, t) && (LogInv(cfg, t) ==> Inv(cfg, t))
  {
    WorkerStepKeeps(cfg, s, t, w, c);
    WorkerStepTables(cfg, s, t, w, c);
    WorkerStepOthers(cfg, s, t, w, c);
    WorkersFrame(cfg, s, t, c, w);
  }

  /** Every accepted delivery stays accepted: nobody is about to send it again. */
  ghost predicate AcceptedKept(cfg: Config, s: State, t: State) {
    Sound(cfg) ==> forall id :: DoneSending(s, id) ==> DoneSending(t, id)
  }

  lemma PullStep(cfg: Config, s: State, w: nat, copy: Copy)
    requires WorkerCan(cfg, s, w, Pull(copy)) && RowsInv(cfg, s)
    ensures var t := WorkerDoes(cfg, s, w, Pull(copy));
            WorkerStep(cfg, s, t, w, s.nextId) && WorkerLands(cfg, s, t, w) && AcceptedKept(cfg, s, t) && t.log == s.log
  {
  }

  /** Steps that end the handling of a message, or lose it. */
  lemma ClosingStep(cfg: Config, s: State, w: nat, op: WorkerOp)
    requires WorkerCan(cfg, s, w, op) && RowsInv(cfg, s) && WorkerOk(cfg, s, Worker(s, w))
    requires op.PublishDead? || op.Audit? || op.Reply? || op.Crash?
    ensures var t := WorkerDoes(cfg, s, w, op);
            WorkerStep(cfg, s, t, w, s.nextId) && WorkerLands(cfg, s, t, w) && AcceptedKept(cfg, s, t) && t.log == s.log
  {
    var t := WorkerDoes(cfg, s, w, op);
    assert t == s.(bus := t.bus, workers := t.workers) && t.bus.stream == s.bus.stream;
    assert !t.workers[w].Owning?;
  }

  lemma FindStep(cfg: Config, s: State, w: nat, ok: bool)
    requires WorkerCan(cfg, s, w, Find(ok)) && RowsInv(cfg, s) && WorkerOk(cfg, s, Worker(s, w))
    ensures var t := WorkerDoes(cfg, s, w, Find(ok));
            WorkerStep(cfg, s, t, w, s.nextId) && WorkerLands(cfg, s, t, w) && AcceptedKept(cfg, s, t) && t.log == s.log
  {
  }

  /** The row that the compare-and-swap of `w` writes, if it writes any. */
  ghost function Claimed(s: State, w: nat, write: Write): (c: nat)
    requires Worker(s, w).Claiming?
  {
    var pc := Worker(s, w);
    if !write.Lost? && HasStatus(s.db, pc.d.id, pc.prev) then pc.d.id else s.nextId
  }

  lemma ClaimStep(cfg: Config, s: State, w: nat, write: Write)
    requires WorkerCan(cfg, s, w, Claim(write)) && RowsInv(cfg, s) && WorkerOk(cfg, s, Worker(s, w))
    ensures var t, c := WorkerDoes(cfg, s, w, Claim(write)), Claimed(s, w, write);
            WorkerStep(cfg, s, t, w, c) && t.log == s.log && (c in t.db.deliveries ==> RowOk(cfg, t, c))
  {
    var c := Claimed(s, w, write);
    if c != s.nextId { assert RowOk(cfg, s, c); }
  }

  lemma ClaimLands(cfg: Config, s: State, w: nat, write: Write)
    requires WorkerCan(cfg, s, w, Claim(write)) && WorkerOk(cfg, s, Worker(s, w))
    ensures var t := WorkerDoes(cfg, s, w, Claim(write));
            WorkerLands(cfg, s, t, w) && AcceptedKept(cfg, s, t)
  {
  }

  lemma FailureLands(cfg: Config, s: State, copy: Copy, d: Row, attempt: Attempt, permanent: bool, msg: string, now: int)
    requires WorkerOk(cfg, s, Owning(copy, d, d, Some(attempt), Gating))
    ensures var pc := AfterFailure(cfg, copy, d, attempt, permanent, msg, now);
            WorkerOk(cfg, s, pc) && Owns(pc, d.id) && pc.stage != SavingSuccess
  {
  }

  lemma GateLands(cfg: Config, s: State, w: nat, g: GateResult)
    requires WorkerCan(cfg, s, w, Gate(g)) && WorkerOk(cfg, s, Worker(s, w))
    ensures var pc, next := Worker(s, w), AfterGate(cfg, s, w, g);
            WorkerOk(cfg, s, next) && Owns(next, pc.d.id)
  {
    var pc := Worker(s, w);
    if g.Tripped? {
      FailureLands(cfg, s, pc.copy, pc.d, NewAttempt(pc.d), false, "transient error", s.now);
    }
  }

  lemma GateStep(cfg: Config, s: State, w: nat, g: GateResult)
    requires WorkerCan(cfg, s, w, Gate(g)) && RowsInv(cfg, s) && WorkerOk(cfg, s, Worker(s, w))
    ensures var t := WorkerDoes(cfg, s, w, Gate(g));
            WorkerStep(cfg, s, t, w, s.nextId) && WorkerLands(cfg, s, t, w) && AcceptedKept(cfg, s, t) && t.log == s.log
  {
    GateLands(cfg, s, w, g);
    OwnerMoves(cfg, s, w, AfterGate(cfg, s, w, g));
    GateKeepsAccepted(cfg, s, w, g);
  }

  lemma GateKeepsAccepted(cfg: Config, s: State, w: nat, g: GateResult)
    requires WorkerCan(cfg, s, w, Gate(g)) && WorkerOk(cfg, s, Worker(s, w)) && WorkerOk(cfg, s, AfterGate(cfg, s, w, g))
    ensures AcceptedKept(cfg, s, s.(workers := s.workers[w := AfterGate(cfg, s, w, g)]))
  {
  }

  /** An owner moves on to its next stage, and nothing else changes. */
  lemma OwnerMoves(cfg: Config, s: State, w: nat, next: WorkerPc)
    requires RowsInv(cfg, s) && Worker(s, w).Owning? && WorkerOk(cfg, s, Worker(s, w))
    requires WorkerOk(cfg, s, next) && Owns(next, Worker(s, w).d.id)
    ensures var t := s.(workers := s.workers[w := next]);
            WorkerStep(cfg, s, t, w, s.nextId) && WorkerLands(cfg, s, t, w)
  {
    var t := s.(workers := s.workers[w := next]);
    assert WorkerOk(cfg, t, next);
  }

  lemma SendStep(cfg: Config, s: State, w: nat, result: SendResult)
    requires WorkerCan(cfg, s, w, Send(result)) && RowsInv(cfg, s) && WorkerOk(cfg, s, Worker(s, w))
    ensures var t := WorkerDoes(cfg, s, w, Send(result));
            WorkerStep(cfg, s, t, w, s.nextId) && WorkerLands(cfg, s, t, w) && AcceptedKept(cfg, s, t)
  {
    var t := WorkerDoes(cfg, s, w, Send(result));
    var pc := Worker(s, w);
    if !result.Delivered? {
      FailureLands(cfg, s, pc.copy, pc.d, pc.attempt.value, result.PermanentError?, result.msg, s.now);
    }
    assert WorkerOk(cfg, s, t.workers[w]);
  }

  lemma RecordStep(cfg: Config, s: State, w: nat, write: Write)
    requires WorkerCan(cfg, s, w, Record(write)) && RowsInv(cfg, s) && WorkerOk(cfg, s, Worker(s, w))
    ensures var t := WorkerDoes(cfg, s, w, Record(write));
            WorkerStep(cfg, s, t, w, s.nextId) && WorkerLands(cfg, s, t, w) && AcceptedKept(cfg, s, t) && t.log == s.log
  {
  }

  lemma SaveStep(cfg: Config, s: State, w: nat, write: Write)
    requires WorkerCan(cfg, s, w, Save(write)) && WorkerOk(cfg, s, Worker(s, w))
    ensures var t, c := WorkerDoes(cfg, s, w, Save(write)), Worker(s, w).d.id;
            WorkerStep(cfg, s, t, w, c) && t.log == s.log
  {
  }

  lemma SavedRow(cfg: Config, s: State, w: nat, write: Write)
    requires AtSave(Worker(s, w)) && RowsInv(cfg, s) && WorkerOk(cfg, s, Worker(s, w))
    ensures var t, c := AfterSave(s, w, write), Worker(s, w).d.id;
            c in t.db.deliveries && RowOk(cfg, t, c)
  {
    assert RowOk(cfg, s, Worker(s, w).d.id);
  }

  lemma SaveLands(cfg: Config, s: State, w: nat, write: Write)
    requires WorkerCan(cfg, s, w, Save(write)) && WorkerOk(cfg, s, Worker(s, w))
    ensures var t := WorkerDoes(cfg, s, w, Save(write));
            WorkerLands(cfg, s, t, w) && AcceptedKept(cfg, s, t)
  {
  }

  lemma WorkerAt(cfg: Config, s: State, w: nat)
    requires WorkersInv(cfg, s)
    ensures WorkerOk(cfg, s, Worker(s, w))
  {
  }

  lemma SendKeepsLog(cfg: Config, s: State, w: nat, result: SendResult)
    requires WorkerCan(cfg, s, w, Send(result)) && RowsInv(cfg, s) && WorkerOk(cfg, s, Worker(s, w)) && LogInv(cfg, s)
    requires WorkersInv(cfg, s)
    requires Keeps(s, WorkerDoes(cfg, s, w, Send(result))) && AcceptedKept(cfg, s, WorkerDoes(cfg, s, w, Send(result)))
    ensures LogInv(cfg, WorkerDoes(cfg, s, w, Send(result)))
  {
    var t := WorkerDoes(cfg, s, w, Send(result));
    var id := Worker(s, w).d.id;
    assert Owns(s.workers[w], id) && (Sound(cfg) ==> !DoneSending(s, id));
    assert RowOk(cfg, s, id);
    forall i | 0 <= i < |t.log.sends| ensures EventOk(cfg, t, t.log.sends[i]) {
      if i < |s.log.sends| { assert EventOk(cfg, s, s.log.sends[i]); }
    }
  }

  lemma WorkerKeepsInv(cfg: Config, s: State, w: nat, op: WorkerOp)
    requires Inv(cfg, s) && WorkerCan(cfg, s, w, op)
    ensures Inv(cfg, WorkerDoes(cfg, s, w, op))
  {
    var t := WorkerDoes(cfg, s, w, op);
    WorkerAt(cfg, s, w);
    var c := s.nextId;
    match op {
      case Pull(copy) => PullStep(cfg, s, w, copy);
      case Find(ok) => FindStep(cfg, s, w, ok);
      case Claim(write) =>
        ClaimStep(cfg, s, w, write);
        ClaimLands(cfg, s, w, write);
        c := Claimed(s, w, write);
      case Gate(g) => GateStep(cfg, s, w, g);
      case Send(result) => SendStep(cfg, s, w, result);
      case Record(write) => RecordStep(cfg, s, w, write);
      case Save(write) =>
        SaveStep(cfg, s, w, write);
        SavedRow(cfg, s, w, write);
        SaveLands(cfg, s, w, write);
        c := Worker(s, w).d.id;
      case _ => ClosingStep(cfg, s, w, op);
    }
    WorkerStepFrame(cfg, s, t, w, c);
    if op.Send? { SendKeepsLog(cfg, s, w, op.result); } else { LogFrame(cfg, s, t); }
  }

  // ----- The other processes

  lemma TickKeepsInv(cfg: Config, s: State, now: int)
    requires Inv(cfg, s) && s.now <= now
    ensures Inv(cfg, s.(now := now))
  {
    var t := s.(now := now);
    RowsFrame(cfg, s, t, s.nextId);
    OutboxFrame(cfg, s, t);
    WorkersFrame(cfg, s, t, s.nextId, s.nextId);
    SchedulersFrame(cfg, s, t, s.nextId);
    ReplaysFrame(cfg, s, t, s.nextId);
    PublishersFrame(s, t, 0);
    ClientsFrame(cfg, s, t);
    LogFrame(cfg, s, t);
  }

  /** Publishers, clients and the log when one row changes that is neither being processed nor has succeeded. */
  lemma RowChangeFrame(cfg: Config, s: State, t: State, c: nat)
    requires PublishersInv(s) && ClientsInv(cfg, s) && LogInv(cfg, s) && Keeps(s, t) && RowsKept(s, t, c)
    requires t.publishers == s.publishers && t.clients == s.clients && t.log == s.log && t.workers == s.workers
    requires t.db.deliveries.Keys == s.db.deliveries.Keys && t.db.scheduled.Keys == s.db.scheduled.Keys
    requires Sound(cfg) ==> !HasStatus(s.db, c, Processing) && !HasStatus(s.db, c, Succeeded)
    ensures PublishersInv(t) && ClientsInv(cfg, t) && LogInv(cfg, t)
  {
    PublishersFrame(s, t, 0);
    ClientsFrame(cfg, s, t);
    LogFrame(cfg, s, t);
  }

  /** A step that leaves the delivery rows, the workers and the log alone keeps what workers, replays and the log say. */
  lemma BystandersFrame(cfg: Config, s: State, t: State)
    requires WorkersInv(cfg, s) && ReplaysInv(cfg, s) && LogInv(cfg, s) && RowsInv(cfg, s)
    requires Keeps(s, t) && RowsKept(s, t, s.nextId)
    requires t.workers == s.workers && t.replays == s.replays && t.log == s.log
    ensures WorkersInv(cfg, t) && ReplaysInv(cfg, t) && LogInv(cfg, t)
  {
    if s.nextId in s.workers { assert WorkerOk(cfg, s, s.workers[s.nextId]); }
    assert s.nextId !in s.db.deliveries;
    forall w | w in t.workers ensures WorkerOk(cfg, t, t.workers[w]) {
      assert WorkerOk(cfg, s, s.workers[w]);
    }
    ReplaysFrame(cfg, s, t, s.nextId);
    LogFrame(cfg, s, t);
  }

  // ----- Clients

  /** A commit of a new key stores the delivery, its key, and an outbox or a scheduled row. */
  lemma CommitStores(cfg: Config, s: State, c: nat)
    requires Client(s, c).Committing? && ClientOk(cfg, s, Client(s, c)) && Client(s, c).d.key !in s.db.keys
    ensures var pc, t := Client(s, c), AfterCommit(cfg, s, c);
            && t.db.deliveries == s.db.deliveries[pc.d.id := pc.d] && t.db.attempts == s.db.attempts
            && t == s.(db := t.db, clients := t.clients)
            && if pc.schedule then
                 && t.db.scheduled == s.db.scheduled[pc.d.id := ScheduledRow(pc.d.scheduledAt.value, false)]
                 && t.db.outbox == s.db.outbox
               else t.db.scheduled == s.db.scheduled && t.db.outbox == s.db.outbox + [OutboxRow(pc.d.id, SubjectOf(cfg, pc.d), false, 0)]
  {
  }

  lemma ClientStepTables(cfg: Config, s: State, t: State)
    requires RowsInv(cfg, s) && OutboxInv(cfg, s)
    requires t == s.(nextId := t.nextId, clients := t.clients, log := t.log) && s.nextId <= t.nextId
    ensures RowsInv(cfg, t) && OutboxInv(cfg, t)
  {
    RowsFrame(cfg, s, t, s.nextId);
    OutboxFrame(cfg, s, t);
  }

  lemma ClientStepClients(cfg: Config, s: State, t: State, c: nat)
    requires ClientsInv(cfg, s)
    requires t == s.(nextId := t.nextId, clients := t.clients, log := t.log) && s.nextId <= t.nextId
    requires OnlyAt(s.clients, t.clients, c) && c in t.clients && ClientOk(cfg, t, t.clients[c])
    requires t.clients[c].Committing? ==> t.clients[c].d.id == s.nextId
    ensures ClientsInv(cfg, t)
  {
    forall b | b in t.clients ensures ClientOk(cfg, t, t.clients[b]) {
      if b != c { assert ClientOk(cfg, s, s.clients[b]); }
    }
  }

  lemma ClientStepFrame(cfg: Config, s: State, t: State, c: nat)
    requires Inv(cfg, s)
    requires t == s.(nextId := t.nextId, clients := t.clients, log := t.log) && s.nextId <= t.nextId
    requires t.log.sends == s.log.sends
    requires OnlyAt(s.clients, t.clients, c) && c in t.clients && ClientOk(cfg, t, t.clients[c])
    requires t.clients[c].Committing? ==> t.clients[c].d.id == s.nextId
    ensures Inv(cfg, t)
  {
    ClientStepTables(cfg, s, t);
    ClientStepClients(cfg, s, t, c);
    forall i | 0 <= i < |t.log.sends| ensures EventOk(cfg, t, t.log.sends[i]) {
      assert EventOk(cfg, s, s.log.sends[i]);
    }
  }

  lemma NewDeliveryOk(cfg: Config, s: State, req: Request, c: nat)
    requires RowsInv(cfg, s)
    ensures var d := NewDelivery(s.nextId, req, s.now);
            ClientOk(cfg, s.(nextId := s.nextId + 1), Committing(d, s.now + cfg.ttl, ShouldSchedule(d, s.now)))
  {
  }

  /** The state after `d` has been inserted, as far as the tables are concerned. */
  ghost predicate Insertion(cfg: Config, s: State, t: State, d: Row, expiresAt: int, schedule: bool) {
    && t == s.(db := t.db, clients := t.clients)
    && t.db == Inserted(s.db, d, expiresAt, SubjectOf(cfg, d), schedule)
    && ClientOk(cfg, s, Committing(d, expiresAt, schedule))
    && d.key !in s.db.keys
  }

  lemma InsertKeeps(cfg: Config, s: State, t: State, d: Row, expiresAt: int, schedule: bool)
    requires Insertion(cfg, s, t, d, expiresAt, schedule)
    ensures Keeps(s, t)
  {
  }

  lemma InsertRows(cfg: Config, s: State, t: State, d: Row, expiresAt: int, schedule: bool)
    requires RowsInv(cfg, s) && Insertion(cfg, s, t, d, expiresAt, schedule)
    ensures RowsInv(cfg, t)
  {
    forall id | id in t.db.deliveries ensures RowOk(cfg, t, id) {
      if id != d.id { assert RowOk(cfg, s, id); }
    }
    forall k | k in t.db.keys ensures HasKey(t.db, t.db.keys[k].delivery, k) {
      if k != d.key { assert HasKey(s.db, s.db.keys[k].delivery, k); }
    }
  }

  lemma InsertOutbox(cfg: Config, s: State, t: State, d: Row, expiresAt: int, schedule: bool)
    requires OutboxInv(cfg, s) && Insertion(cfg, s, t, d, expiresAt, schedule)
    ensures OutboxInv(cfg, t)
  {
    InsertKeeps(cfg, s, t, d, expiresAt, schedule);
    OutboxGrows(cfg, s, t);
  }

  /** What may be mentioned stays mentionable. */
  lemma ReleasedKept(cfg: Config, s: State, t: State, id: nat, subject: string)
    requires Keeps(s, t) && Released(cfg, s.db, id, subject)
    ensures Released(cfg, t.db, id, subject)
  {
  }

  /** Old rows and messages keep their part of the outbox invariant; what is new has to be checked by the caller. */
  lemma OutboxGrows(cfg: Config, s: State, t: State)
    requires OutboxInv(cfg, s) && Keeps(s, t)
    requires forall r :: |s.db.outbox| <= r < |t.db.outbox| ==>
                           && Released(cfg, t.db, t.db.outbox[r].delivery, t.db.outbox[r].subject)
                           && (cfg.oneScheduler ==> NoOutboxRow(s.db, t.db.outbox[r].delivery))
    requires |t.db.outbox| <= |s.db.outbox| + 1
    requires forall r :: 0 <= r < |t.db.outbox| && t.db.outbox[r].published ==>
                           (r < |s.db.outbox| && s.db.outbox[r].published) || Announced(t.bus, t.db.outbox[r].delivery)
    requires forall m :: |s.bus.stream| <= m < |t.bus.stream| ==>
                           Released(cfg, t.db, t.bus.stream[m].delivery, t.bus.stream[m].subject)
    ensures OutboxInv(cfg, t)
  {
    forall r | 0 <= r < |t.db.outbox| ensures Released(cfg, t.db, t.db.outbox[r].delivery, t.db.outbox[r].subject) {
      if r < |s.db.outbox| { ReleasedKept(cfg, s, t, s.db.outbox[r].delivery, s.db.outbox[r].subject); }
    }
    forall m | 0 <= m < |t.bus.stream| ensures Released(cfg, t.db, t.bus.stream[m].delivery, t.bus.stream[m].subject) {
      if m < |s.bus.stream| { ReleasedKept(cfg, s, t, s.bus.stream[m].delivery, s.bus.stream[m].subject); }
    }
    forall r | 0 <= r < |t.db.outbox| && t.db.outbox[r].published ensures Announced(t.bus, t.db.outbox[r].delivery) {
      if r < |s.db.outbox| && s.db.outbox[r].published { AnnouncedKept(s, t, s.db.outbox[r].delivery); }
    }
  }

  lemma InsertOthers(cfg: Config, s: State, t: State, d: Row, expiresAt: int, schedule: bool)
    requires RowsInv(cfg, s) && SchedulersInv(cfg, s) && PublishersInv(s) && Insertion(cfg, s, t, d, expiresAt, schedule)
    ensures SchedulersInv(cfg, t) && PublishersInv(t)
  {
    InsertKeeps(cfg, s, t, d, expiresAt, schedule);
    SchedulersFrame(cfg, s, t, s.nextId);
    PublishersFrame(s, t, 0);
  }

  lemma InsertTables(cfg: Config, s: State, t: State, d: Row, expiresAt: int, schedule: bool)
    requires RowsInv(cfg, s) && OutboxInv(cfg, s) && SchedulersInv(cfg, s) && PublishersInv(s)
    requires Insertion(cfg, s, t, d, expiresAt, schedule)
    ensures Keeps(s, t) && RowsInv(cfg, t) && OutboxInv(cfg, t) && SchedulersInv(cfg, t) && PublishersInv(t)
  {
    InsertKeeps(cfg, s, t, d, expiresAt, schedule);
    InsertRows(cfg, s, t, d, expiresAt, schedule);
    InsertOutbox(cfg, s, t, d, expiresAt, schedule);
    InsertOthers(cfg, s, t, d, expiresAt, schedule);
  }

  lemma InsertClients(cfg: Config, s: State, c: nat)
    requires ClientsInv(cfg, s) && Client(s, c).Committing? && Client(s, c).d.key !in s.db.keys
    ensures ClientsInv(cfg, AfterCommit(cfg, s, c))
  {
    var t := AfterCommit(cfg, s, c);
    forall b | b in t.clients ensures ClientOk(cfg, t, t.clients[b]) {
      if b != c { assert ClientOk(cfg, s, s.clients[b]); }
    }
  }

  lemma CommitInserts(cfg: Config, s: State, c: nat)
    requires ClientsInv(cfg, s) && Client(s, c).Committing? && Client(s, c).d.key !in s.db.keys
    ensures var pc := Client(s, c);
            Insertion(cfg, s, AfterCommit(cfg, s, c), pc.d, pc.expiresAt, pc.schedule)
  {
  }

  lemma InsertionKeepsInv(cfg: Config, s: State, t: State, d: Row, expiresAt: int, schedule: bool)
    requires Inv(cfg, s) && Insertion(cfg, s, t, d, expiresAt, schedule) && ClientsInv(cfg, t)
    ensures Inv(cfg, t)
  {
    InsertTables(cfg, s, t, d, expiresAt, schedule);
    BystandersFrame(cfg, s, t);
  }

  lemma ClientKeepsInv(cfg: Config, s: State, c: nat, op: ClientOp)
    requires Inv(cfg, s) && ClientCan(s, c, op)
    ensures Inv(cfg, ClientDoes(cfg, s, c, op))
  {
    var t := ClientDoes(cfg, s, c, op);
    if op.Commit? && Client(s, c).d.key !in s.db.keys {
      CommitInserts(cfg, s, c);
      InsertClients(cfg, s, c);
      InsertionKeepsInv(cfg, s, t, Client(s, c).d, Client(s, c).expiresAt, Client(s, c).schedule);
    } else {
      if op.Lookup? { NewDeliveryOk(cfg, s, op.req, c); }
      ClientStepFrame(cfg, s, t, c);
    }
  }

  // ----- Publishers

  lemma PublisherLands(cfg: Config, s: State, p: nat, op: PublisherOp)
    requires PublisherCan(s, p, op) && PublishersInv(s) && OutboxInv(cfg, s)
    ensures var t := PublisherDoes(cfg, s, p, op);
            && OnlyAt(s.publishers, t.publishers, p) && p in t.publishers && PublisherOk(t, t.publishers[p])
            && Keeps(s, t)
  {
    assert PublisherOk(s, Publisher(s, p));
    match op
    case Check(ok) => CheckLands(cfg, s, p, ok);
    case Fetch => OldestRows(s.db.outbox, 0, cfg.batch);
    case _ => PublisherMoves(cfg, s, p, op);
  }

  lemma CheckLands(cfg: Config, s: State, p: nat, ok: bool)
    requires PublisherCan(s, p, Check(ok)) && PublisherOk(s, Publisher(s, p)) && OutboxInv(cfg, s)
    ensures PublisherOk(s, AfterCheck(s, p, ok))
  {
    var pc := AfterCheck(s, p, ok);
    if pc.Marking? {
      var r :| 0 <= r < |s.db.outbox| && s.db.outbox[r].delivery == s.db.outbox[pc.row].delivery && s.db.outbox[r].published;
      assert Announced(s.bus, s.db.outbox[r].delivery);
    }
  }

  lemma PublisherMoves(cfg: Config, s: State, p: nat, op: PublisherOp)
    requires PublisherCan(s, p, op) && PublisherOk(s, Publisher(s, p)) && !op.Check? && !op.Fetch?
    ensures var t := PublisherDoes(cfg, s, p, op);
            OnlyAt(s.publishers, t.publishers, p) && p in t.publishers && PublisherOk(t, t.publishers[p]) && Keeps(s, t)
  {
    var t := PublisherDoes(cfg, s, p, op);
    if op.Publish? && !op.write.Lost? {
      assert t.bus.stream[|s.bus.stream|].delivery == s.db.outbox[Publisher(s, p).row].delivery;
    }
  }

  lemma PublisherOutbox(cfg: Config, s: State, p: nat, op: PublisherOp)
    requires PublisherCan(s, p, op) && PublishersInv(s) && OutboxInv(cfg, s)
    ensures OutboxInv(cfg, PublisherDoes(cfg, s, p, op))
  {
    var t := PublisherDoes(cfg, s, p, op);
    PublisherLands(cfg, s, p, op);
    assert PublisherOk(s, Publisher(s, p));
    if op.Publish? {
      var row := s.db.outbox[Publisher(s, p).row];
      assert Released(cfg, s.db, row.delivery, row.subject);
    }
    if op.Mark? { AnnouncedKept(s, t, s.db.outbox[Publisher(s, p).row].delivery); }
    OutboxGrows(cfg, s, t);
  }

  lemma PublisherOthers(cfg: Config, s: State, t: State)
    requires RowsInv(cfg, s) && SchedulersInv(cfg, s) && ClientsInv(cfg, s) && Keeps(s, t)
    requires t == s.(db := t.db, bus := t.bus, publishers := t.publishers)
    requires t.db == s.db.(outbox := t.db.outbox) && |t.db.outbox| == |s.db.outbox|
    ensures RowsInv(cfg, t) && SchedulersInv(cfg, t) && ClientsInv(cfg, t)
  {
    RowsFrame(cfg, s, t, s.nextId);
    SchedulersFrame(cfg, s, t, s.nextId);
    ClientsFrame(cfg, s, t);
  }

  lemma PublisherKeepsInv(cfg: Config, s: State, p: nat, op: PublisherOp)
    requires Inv(cfg, s) && PublisherCan(s, p, op)
    ensures Inv(cfg, PublisherDoes(cfg, s, p, op))
  {
    var t := PublisherDoes(cfg, s, p, op);
    PublisherLands(cfg, s, p, op);
    PublisherOutbox(cfg, s, p, op);
    PublishersFrame(s, t, p);
    PublisherOthers(cfg, s, t);
    BystandersFrame(cfg, s, t);
  }

  // ----- The scheduler

  /** A scheduler step that writes neither delivery rows nor the outbox. */
  predicate SchedulerLocal(op: SchedulerOp) {
    op.FetchDue? || op.Load? || op.MarkDone? || op.EndTick? || op.Restart?
  }

  lemma SchedulerLocalKeeps(cfg: Config, s: State, k: nat, op: SchedulerOp)
    requires SchedulerCan(cfg, s, k, op) && SchedulerLocal(op)
    ensures Keeps(s, SchedulerDoes(cfg, s, k, op))
  {
  }

  lemma SchedulerLocalOk(cfg: Config, s: State, k: nat, op: SchedulerOp)
    requires SchedulerCan(cfg, s, k, op) && SchedulerLocal(op) && SchedulerOk(cfg, s, Scheduler(s, k)) && RowsInv(cfg, s)
    ensures var t := SchedulerDoes(cfg, s, k, op);
            SchedulerOk(cfg, t, t.schedulers[k])
  {
    if op.Load? && |Scheduler(s, k).todo| > 0 {
      assert ScheduledBy(s, Scheduler(s, k).todo[0], Scheduler(s, k).started);
    }
  }

  lemma SchedulerLocalLands(cfg: Config, s: State, k: nat, op: SchedulerOp)
    requires SchedulerCan(cfg, s, k, op) && SchedulerLocal(op) && SchedulersInv(cfg, s) && RowsInv(cfg, s)
    ensures SchedulersInv(cfg, SchedulerDoes(cfg, s, k, op))
  {
    var t := SchedulerDoes(cfg, s, k, op);
    assert SchedulerOk(cfg, s, Scheduler(s, k));
    SchedulerLocalOk(cfg, s, k, op);
    forall j | j in t.schedulers ensures SchedulerOk(cfg, t, t.schedulers[j]) {
      if j != k { assert SchedulerOk(cfg, s, s.schedulers[j]); }
    }
  }

  lemma SchedulerLocalRows(cfg: Config, s: State, k: nat, op: SchedulerOp)
    requires SchedulerCan(cfg, s, k, op) && SchedulerLocal(op) && SchedulersInv(cfg, s) && RowsInv(cfg, s)
    ensures RowsInv(cfg, SchedulerDoes(cfg, s, k, op))
  {
    var t := SchedulerDoes(cfg, s, k, op);
    forall id | id in t.db.deliveries ensures RowOk(cfg, t, id) {
      assert RowOk(cfg, s, id);
    }
    forall i | i in t.db.keys ensures HasKey(t.db, t.db.keys[i].delivery, i) {
      assert HasKey(s.db, s.db.keys[i].delivery, i);
    }
  }

  lemma SchedulerLocalOthers(cfg: Config, s: State, t: State)
    requires OutboxInv(cfg, s) && PublishersInv(s) && ClientsInv(cfg, s) && Keeps(s, t)
    requires t == s.(db := t.db, schedulers := t.schedulers) && t.db == s.db.(scheduled := t.db.scheduled)
    requires t.db.scheduled.Keys == s.db.scheduled.Keys
    ensures OutboxInv(cfg, t) && PublishersInv(t) && ClientsInv(cfg, t)
  {
    OutboxFrame(cfg, s, t);
    PublishersFrame(s, t, 0);
    ClientsFrame(cfg, s, t);
  }

  lemma PromoteStep(cfg: Config, s: State, k: nat, write: Write)
    requires SchedulerCan(cfg, s, k, Promote(write)) && SchedulersInv(cfg, s)
    ensures var t := SchedulerDoes(cfg, s, k, Promote(write));
            && Keeps(s, t) && RowsKept(s, t, Scheduler(s, k).d.id)
            && (cfg.oneScheduler ==> HasStatus(s.db, Scheduler(s, k).d.id, Pending))
            && t.db.deliveries.Keys == s.db.deliveries.Keys
  {
    assert SchedulerOk(cfg, s, Scheduler(s, k));
  }

  lemma PromoteRow(cfg: Config, s: State, k: nat, write: Write)
    requires SchedulerCan(cfg, s, k, Promote(write)) && SchedulersInv(cfg, s) && RowsInv(cfg, s)
    ensures RowOk(cfg, SchedulerDoes(cfg, s, k, Promote(write)), Scheduler(s, k).d.id)
  {
    var d := Scheduler(s, k).d;
    assert SchedulerOk(cfg, s, Scheduler(s, k));
    assert RowOk(cfg, s, d.id);
    assert s.db.deliveries[d.id].scheduledAt == Some(s.db.scheduled[d.id].at);
  }

  lemma PendingHasNoOutboxRow(cfg: Config, s: State, id: nat)
    requires OutboxInv(cfg, s) && HasStatus(s.db, id, Pending)
    ensures NoOutboxRow(s.db, id)
  {
    forall r | 0 <= r < |s.db.outbox| ensures s.db.outbox[r].delivery != id {
      assert Released(cfg, s.db, s.db.outbox[r].delivery, s.db.outbox[r].subject);
    }
  }

  lemma PromoteLands(cfg: Config, s: State, k: nat, write: Write)
    requires SchedulerCan(cfg, s, k, Promote(write)) && SchedulersInv(cfg, s)
    requires cfg.oneScheduler ==> NoOutboxRow(s.db, Scheduler(s, k).d.id)
    ensures SchedulersInv(cfg, SchedulerDoes(cfg, s, k, Promote(write)))
  {
  }

  lemma PromoteKeepsInv(cfg: Config, s: State, k: nat, write: Write)
    requires Inv(cfg, s) && SchedulerCan(cfg, s, k, Promote(write))
    ensures Inv(cfg, SchedulerDoes(cfg, s, k, Promote(write)))
  {
    var t, c := SchedulerDoes(cfg, s, k, Promote(write)), Scheduler(s, k).d.id;
    PromoteStep(cfg, s, k, write);
    PromoteRow(cfg, s, k, write);
    if cfg.oneScheduler { PendingHasNoOutboxRow(cfg, s, c); }
    PromoteLands(cfg, s, k, write);
    RowsFrame(cfg, s, t, c);
    OutboxFrame(cfg, s, t);
    WorkersFrame(cfg, s, t, c, 0);
    ReplaysFrame(cfg, s, t, c);
    RowChangeFrame(cfg, s, t, c);
  }

  lemma EnqueueStep(cfg: Config, s: State, k: nat, write: Write)
    requires SchedulerCan(cfg, s, k, Enqueue(write)) && SchedulersInv(cfg, s) && OutboxInv(cfg, s)
    ensures var t := SchedulerDoes(cfg, s, k, Enqueue(write));
            Keeps(s, t) && SchedulersInv(cfg, t) && OutboxInv(cfg, t)
  {
    var t := SchedulerDoes(cfg, s, k, Enqueue(write));
    OutboxGrows(cfg, s, t);
  }

  lemma EnqueueKeepsInv(cfg: Config, s: State, k: nat, write: Write)
    requires Inv(cfg, s) && SchedulerCan(cfg, s, k, Enqueue(write))
    ensures Inv(cfg, SchedulerDoes(cfg, s, k, Enqueue(write)))
  {
    var t := SchedulerDoes(cfg, s, k, Enqueue(write));
    EnqueueStep(cfg, s, k, write);
    RowsFrame(cfg, s, t, s.nextId);
    PublishersFrame(s, t, 0);
    ClientsFrame(cfg, s, t);
    BystandersFrame(cfg, s, t);
  }

  lemma SchedulerKeepsInv(cfg: Config, s: State, k: nat, op: SchedulerOp)
    requires Inv(cfg, s) && SchedulerCan(cfg, s, k, op)
    ensures Inv(cfg, SchedulerDoes(cfg, s, k, op))
  {
    if op.Promote? {
      PromoteKeepsInv(cfg, s, k, op.write);
    } else if op.Enqueue? {
      EnqueueKeepsInv(cfg, s, k, op.write);
    } else {
      var t := SchedulerDoes(cfg, s, k, op);
      SchedulerLocalKeeps(cfg, s, k, op);
      SchedulerLocalLands(cfg, s, k, op);
      SchedulerLocalRows(cfg, s, k, op);
      SchedulerLocalOthers(cfg, s, t);
      BystandersFrame(cfg, s, t);
    }
  }

  // ----- Replays

  /** The row that a replay step writes, if it writes any. */
  ghost function Requeued(s: State, r: nat, op: ReplayOp): nat {
    if op.Requeue? && Replay(s, r).Saving? then Replay(s, r).d.id else s.nextId
  }

  lemma ReplayStep(cfg: Config, s: State, r: nat, op: ReplayOp)
    requires ReplayCan(cfg, s, r, op) && ReplayOk(cfg, s, Replay(s, r)) && s.nextId !in s.db.deliveries
    ensures var t, c := ReplayDoes(cfg, s, r, op), Requeued(s, r, op);
            && Keeps(s, t) && RowsKept(s, t, c)
            && t.db.deliveries.Keys == s.db.deliveries.Keys
            && (c in s.db.deliveries ==>
                  s.db.deliveries[c].status != Pending && (Sound(cfg) ==> s.db.deliveries[c].status == Dlq))
  {
  }

  lemma ReplayRow(cfg: Config, s: State, r: nat, op: ReplayOp)
    requires ReplayCan(cfg, s, r, op) && ReplayOk(cfg, s, Replay(s, r)) && RowsInv(cfg, s)
    ensures var t, c := ReplayDoes(cfg, s, r, op), Requeued(s, r, op);
            c in t.db.deliveries ==> RowOk(cfg, t, c)
  {
    if op.Requeue? { assert RowOk(cfg, s, Replay(s, r).d.id); }
  }

  lemma ReplayLands(cfg: Config, s: State, r: nat, op: ReplayOp)
    requires ReplayCan(cfg, s, r, op) && ReplayOk(cfg, s, Replay(s, r)) && RowsInv(cfg, s)
    ensures var t := ReplayDoes(cfg, s, r, op);
            ReplayOk(cfg, t, t.replays[r])
  {
    if op.Open? { assert RowOk(cfg, s, op.id); }
  }

  lemma ReplaysAfter(cfg: Config, s: State, r: nat, op: ReplayOp)
    requires ReplayCan(cfg, s, r, op) && ReplaysInv(cfg, s)
    requires op.Open? ==> s.db.deliveries[op.id].id == op.id
    requires var t := ReplayDoes(cfg, s, r, op);
             Keeps(s, t) && RowsKept(s, t, Requeued(s, r, op)) && ReplayOk(cfg, t, t.replays[r])
    ensures ReplaysInv(cfg, ReplayDoes(cfg, s, r, op))
  {
    var t := ReplayDoes(cfg, s, r, op);
    forall q | q in t.replays ensures ReplayOk(cfg, t, t.replays[q]) {
      if q != r { assert ReplayOk(cfg, s, s.replays[q]); }
    }
  }

  lemma ReplayOutbox(cfg: Config, s: State, r: nat, op: ReplayOp)
    requires ReplayCan(cfg, s, r, op) && ReplayOk(cfg, s, Replay(s, r)) && OutboxInv(cfg, s)
    requires Keeps(s, ReplayDoes(cfg, s, r, op))
    ensures OutboxInv(cfg, ReplayDoes(cfg, s, r, op))
  {
    OutboxGrows(cfg, s, ReplayDoes(cfg, s, r, op));
  }

  lemma ReplayOthers(cfg: Config, s: State, t: State, c: nat)
    requires WorkersInv(cfg, s) && SchedulersInv(cfg, s) && PublishersInv(s) && ClientsInv(cfg, s) && LogInv(cfg, s)
    requires Keeps(s, t) && RowsKept(s, t, c) && t.db.deliveries.Keys == s.db.deliveries.Keys
    requires t == s.(db := t.db, bus := t.bus, replays := t.replays) && t.db == s.db.(deliveries := t.db.deliveries)
    requires c in s.db.deliveries ==> s.db.deliveries[c].status != Pending && (Sound(cfg) ==> s.db.deliveries[c].status == Dlq)
    ensures WorkersInv(cfg, t) && SchedulersInv(cfg, t) && PublishersInv(t) && ClientsInv(cfg, t) && LogInv(cfg, t)
  {
    WorkersFrame(cfg, s, t, c, 0);
    SchedulersFrame(cfg, s, t, c);
    RowChangeFrame(cfg, s, t, c);
  }

  lemma ReplayRows(cfg: Config, s: State, r: nat, op: ReplayOp)
    requires RowsInv(cfg, s) && ReplayOk(cfg, s, Replay(s, r)) && ReplayCan(cfg, s, r, op)
    ensures RowsInv(cfg, ReplayDoes(cfg, s, r, op))
  {
    var t := ReplayDoes(cfg, s, r, op);
    if op.Requeue? {
      ReplayStep(cfg, s, r, op);
      ReplayRow(cfg, s, r, op);
      RowsFrame(cfg, s, t, Replay(s, r).d.id);
    } else {
      assert t.db == s.db;
      forall id | id in t.db.deliveries ensures RowOk(cfg, t, id) { assert RowOk(cfg, s, id); }
    }
  }

  lemma ReplayReplays(cfg: Config, s: State, r: nat, op: ReplayOp)
    requires RowsInv(cfg, s) && ReplaysInv(cfg, s) && ReplayCan(cfg, s, r, op)
    ensures ReplaysInv(cfg, ReplayDoes(cfg, s, r, op))
  {
    assert ReplayOk(cfg, s, Replay(s, r));
    if op.Open? { assert RowOk(cfg, s, op.id); }
    ReplayStep(cfg, s, r, op);
    ReplayLands(cfg, s, r, op);
    ReplaysAfter(cfg, s, r, op);
  }

  lemma ReplayKeepsInv(cfg: Config, s: State, r: nat, op: ReplayOp)
    requires Inv(cfg, s) && ReplayCan(cfg, s, r, op)
    ensures Inv(cfg, ReplayDoes(cfg, s, r, op))
  {
    assert ReplayOk(cfg, s, Replay(s, r));
    ReplayRows(cfg, s, r, op);
    ReplayReplays(cfg, s, r, op);
    ReplayStep(cfg, s, r, op);
    ReplayOutbox(cfg, s, r, op);
    ReplayOthers(cfg, s, ReplayDoes(cfg, s, r, op), Requeued(s, r, op));
  }

  // ----- All runs

  lemma InitInv(cfg: Config)
    ensures Inv(cfg, INIT)
  {
  }

  /** Every action of every process keeps the invariant. */
  lemma StepKeepsInv(cfg: Config, s: State, a: Action)
    requires Inv(cfg, s) && Enabled(cfg, s, a)
    ensures Inv(cfg, Apply(cfg, s, a))
  {
    match a
    case Tick(now) => TickKeepsInv(cfg, s, now);
    case ByClient(c, op) => ClientKeepsInv(cfg, s, c, op);
    case ByPublisher(p, op) => PublisherKeepsInv(cfg, s, p, op);
    case ByScheduler(k, op) => SchedulerKeepsInv(cfg, s, k, op);
    case ByWorker(w, op) => WorkerKeepsInv(cfg, s, w, op);
    case ByReplay(r, op) => ReplayKeepsInv(cfg, s, r, op);
  }

  lemma {:induction false} RunKeepsInv(cfg: Config, s: State, acts: seq<Action>)
    requires Inv(cfg, s) && RunFrom(cfg, s, acts).Some?
    ensures Inv(cfg, RunFrom(cfg, s, acts).value)
  {
    if acts != [] {
      var before := acts[..|acts| - 1];
      RunKeepsInv(cfg, s, before);
      StepKeepsInv(cfg, RunFrom(cfg, s, before).value, acts[|acts| - 1]);
    }
  }

  /** The invariant holds in every state of every run of every deployment. */
  lemma ReachableInv(cfg: Config, s: State)
    requires Reachable(cfg, s)
    ensures Inv(cfg, s)
  {
    var acts :| RunFrom(cfg, INIT, acts) == Some(s);
    InitInv(cfg);
    RunKeepsInv(cfg, INIT, acts);
  }
}
