/**
  The delivery pipeline as one interleaved state machine.

  Every database statement, transaction, broker call and provider call is one
  atomic action of one process: an ingest client, an outbox publisher, a
  scheduler, a dispatch worker or a replay request. Any number of each may run,
  every call may fail, a failing write may or may not have been applied, and any
  process may crash between two of its calls. The choices of the environment are
  the parameters of the actions, so a run is a sequence of actions.
*/
module Protocol {
  import opened Wrappers
  import opened Notification
  import Routing

  /** Settings, and the three conditions on the deployment that the code itself does not enforce. */
  datatype Config = Config(
    prefix: string,
    maxAttempts: int,
    ttl: int,
    batch: nat,
    consumers: set<nat>,      // durable consumer names; every message goes to each of them
    oneScheduler: bool,       // at most one scheduler instance
    serialReplays: bool,      // no two overlapping replays of one delivery
    exclusiveHold: bool)      // no redelivery of a copy while a worker still handles it

  // ----- The database

  datatype KeyRow = KeyRow(delivery: nat, expiresAt: int)
  datatype OutboxRow = OutboxRow(delivery: nat, subject: string, published: bool, attempts: nat)
  datatype ScheduledRow = ScheduledRow(at: int, processed: bool)
  datatype AttemptRow = AttemptRow(delivery: nat, attempt: Attempt)

  /** Outbox and attempt rows are in insertion order; an outbox row's id is its index. */
  datatype Db = Db(
    deliveries: map<nat, Row>,
    keys: map<Key, KeyRow>,
    outbox: seq<OutboxRow>,
    scheduled: map<nat, ScheduledRow>,
    attempts: seq<AttemptRow>)

  ghost predicate RowIds(db: Db) {
    forall x :: x in db.deliveries ==> db.deliveries[x].id == x
  }

  /** UPDATE deliveries: only the four mutable columns are written. */
  function WrittenBack(stored: Row, d: Row): Row {
    stored.(status := d.status, retryCount := d.retryCount, lastError := d.lastError, updatedAt := d.updatedAt)
  }

  function Updated(db: Db, d: Row): Db {
    if d.id in db.deliveries
    then db.(deliveries := db.deliveries[d.id := WrittenBack(db.deliveries[d.id], d)])
    else db
  }

  predicate HasStatus(db: Db, id: nat, status: Status) {
    id in db.deliveries && db.deliveries[id].status == status
  }

  function UpdatedIf(db: Db, d: Row, expected: Status): Db {
    if HasStatus(db, d.id, expected) then Updated(db, d) else db
  }

  function Enqueued(db: Db, id: nat, subject: string): Db {
    db.(outbox := db.outbox + [OutboxRow(id, subject, false, 0)])
  }

  /** The committed part of IngestTransactional. */
  function Inserted(db: Db, d: Row, expiresAt: int, subject: string, schedule: bool): Db {
    var keyed := db.(deliveries := db.deliveries[d.id := d], keys := db.keys[d.key := KeyRow(d.id, expiresAt)]);
    if schedule && d.scheduledAt.Some?
    then keyed.(scheduled := keyed.scheduled[d.id := ScheduledRow(d.scheduledAt.value, false)])
    else Enqueued(keyed, d.id, subject)
  }

  function WithPublished(db: Db, r: nat): Db
    requires r < |db.outbox|
  {
    db.(outbox := db.outbox[r := db.outbox[r].(published := true)])
  }

  function WithFailure(db: Db, r: nat): Db
    requires r < |db.outbox|
  {
    db.(outbox := db.outbox[r := db.outbox[r].(attempts := db.outbox[r].attempts + 1)])
  }

  predicate HasPublished(outbox: seq<OutboxRow>, id: nat) {
    exists r :: 0 <= r < |outbox| && outbox[r].delivery == id && outbox[r].published
  }

  function WithProcessed(db: Db, id: nat): Db {
    if id in db.scheduled
    then db.(scheduled := db.scheduled[id := db.scheduled[id].(processed := true)])
    else db
  }

  function WithAttempt(db: Db, id: nat, attempt: Attempt): Db {
    db.(attempts := db.attempts + [AttemptRow(id, attempt)])
  }

  /** The unexpired key row, if there is one. */
  function FindKey(db: Db, key: Key, now: int): Option<nat> {
    if key in db.keys && db.keys[key].expiresAt > now then Some(db.keys[key].delivery) else None
  }

  // ----- The broker

  /** `replay` is the header that ReplayDelivery sets. */
  datatype Message = Message(delivery: nat, subject: string, replay: bool)

  /** A message as one durable consumer sees it. */
  datatype Copy = Copy(consumer: nat, msg: nat)

  datatype Bus = Bus(stream: seq<Message>, acked: set<Copy>, dead: seq<Message>)

  /** moveToDLQ announces the delivery on the dead-letter stream. */
  function DeadLettered(bus: Bus, d: Row): Bus {
    bus.(dead := bus.dead + [Message(d.id, Routing.DlqSubject(d.key.channel), false)])
  }

  predicate IsCopy(cfg: Config, bus: Bus, c: Copy) {
    c.consumer in cfg.consumers && c.msg < |bus.stream|
  }

  predicate Outstanding(cfg: Config, bus: Bus, c: Copy) {
    IsCopy(cfg, bus, c) && c !in bus.acked
  }

  function Sent(bus: Bus, id: nat, subject: string, replay: bool): Bus {
    bus.(stream := bus.stream + [Message(id, subject, replay)])
  }

  // ----- Outcomes chosen by the environment

  /** A write that succeeds, one that is lost, and one that is applied although the caller sees an error. */
  datatype Write = Applied | Lost | Unacknowledged

  datatype GateResult = NoProvider | Tripped | Cleared

  datatype SendResult = Delivered | TransientError(msg: string) | PermanentError(msg: string)

  // ----- Processes: program counters with the local variables that are live at them

  datatype Request = Request(key: Key, priority: Priority, scheduledAt: Option<int>)

  /** `at` is when the key of a refused request was found to have expired. */
  datatype Response = Accepted(key: Key, delivery: nat, duplicate: bool) | Refused(key: Key, at: int)

  datatype ClientPc =
    | Away
    | Committing(d: Row, expiresAt: int, schedule: bool)
    | Rechecking(key: Key)
    | Answering(response: Response)

  datatype PublisherPc =
    | Waiting
    | Flushing(todo: seq<nat>)
    | Publishing(row: nat, todo: seq<nat>)
    | Marking(row: nat, todo: seq<nat>)
    | Failing(row: nat, todo: seq<nat>)

  datatype SchedulerPc =
    | Sleeping
    | Scanning(started: int, todo: seq<nat>)
    | Promoting(started: int, todo: seq<nat>, d: Row)
    | Enqueuing(started: int, todo: seq<nat>, d: Row)
    | Finishing(started: int, todo: seq<nat>, id: nat)

  /** What a worker does next while it owns a delivery. */
  datatype Stage = Gating | Sending | SavingSuccess | SavingRetry | RecordingDlq | SavingDlq

  /** What a worker does next after its final write. */
  datatype Rest = RecordingSuccess | RecordingRetry | PublishingDlq | Auditing

  /** `d` is the worker's in-memory delivery and `base` the row as its compare-and-swap wrote it. */
  datatype WorkerPc =
    | Free
    | Pulled(copy: Copy)
    | Claiming(copy: Copy, d: Row, prev: Status)
    | Owning(copy: Copy, d: Row, base: Row, attempt: Option<Attempt>, stage: Stage)
    | Closing(copy: Copy, d: Row, attempt: Option<Attempt>, rest: Rest)
    | Replying(copy: Copy, ack: bool)

  datatype ReplayPc =
    | Off
    | Saving(d: Row)
    | Announcing(id: nat, subject: string)

  datatype SendEvent = SendEvent(delivery: nat, at: int, ok: bool)

  /** What the outside world has seen: responses to clients and calls to providers. */
  datatype Log = Log(responses: seq<Response>, sends: seq<SendEvent>)

  datatype State = State(
    now: int,
    nextId: nat,
    db: Db,
    bus: Bus,
    clients: map<nat, ClientPc>,
    publishers: map<nat, PublisherPc>,
    schedulers: map<nat, SchedulerPc>,
    workers: map<nat, WorkerPc>,
    replays: map<nat, ReplayPc>,
    log: Log)

  const INIT: State := State(
    0, 0,
    Db(map[], map[], [], map[], []),
    Bus([], {}, []),
    map[], map[], map[], map[], map[],
    Log([], []))

  function Client(s: State, c: nat): ClientPc { if c in s.clients then s.clients[c] else Away }
  function Publisher(s: State, p: nat): PublisherPc { if p in s.publishers then s.publishers[p] else Waiting }
  function Scheduler(s: State, k: nat): SchedulerPc { if k in s.schedulers then s.schedulers[k] else Sleeping }
  function Worker(s: State, w: nat): WorkerPc { if w in s.workers then s.workers[w] else Free }
  function Replay(s: State, r: nat): ReplayPc { if r in s.replays then s.replays[r] else Off }

  function SubjectOf(cfg: Config, d: Row): string {
    Routing.NotificationSubject(cfg.prefix, d.key.channel, d.priority)
  }

  // ----- Actions

  datatype ClientOp = Lookup(req: Request) | Commit | Recheck | Answer | Abandon

  datatype PublisherOp =
    | Fetch | Check(ok: bool) | Publish(write: Write) | Mark(write: Write)
    | MarkFailed(write: Write) | EndFlush | Halt

  datatype SchedulerOp =
    | FetchDue(ids: seq<nat>) | Load(ok: bool) | Promote(write: Write) | Enqueue(write: Write)
    | MarkDone(write: Write) | EndTick | Restart

  datatype WorkerOp =
    | Pull(copy: Copy) | Find(ok: bool) | Claim(write: Write) | Gate(gate: GateResult) | Send(result: SendResult)
    | Record(write: Write) | Save(write: Write) | PublishDead(write: Write) | Audit(ok: bool) | Reply | Crash

  datatype ReplayOp = Open(id: nat) | Requeue(write: Write) | Announce(write: Write) | Abort

  datatype Action =
    | Tick(now: int)
    | ByClient(c: nat, cop: ClientOp)
    | ByPublisher(p: nat, pop: PublisherOp)
    | ByScheduler(k: nat, sop: SchedulerOp)
    | ByWorker(w: nat, wop: WorkerOp)
    | ByReplay(r: nat, rop: ReplayOp)

  // ----- Clients (internal/application/ingest/service.go)

  function NewDelivery(id: nat, req: Request, now: int): Row {
    var d := Row(id, req.key, req.priority, req.scheduledAt, now, Pending, 0, "", now);
    if ShouldSchedule(d, now) then d else Stamped(d, Queued, now)
  }

  function AfterLookup(cfg: Config, s: State, c: nat, req: Request): State {
    match FindKey(s.db, req.key, s.now)
    case Some(id) =>
      s.(clients := s.clients[c := Answering(Accepted(req.key, id, true))])
    case None =>
      var d := NewDelivery(s.nextId, req, s.now);
      s.(nextId := s.nextId + 1,
         clients := s.clients[c := Committing(d, s.now + cfg.ttl, ShouldSchedule(d, s.now))])
  }

  function AfterCommit(cfg: Config, s: State, c: nat): State
    requires Client(s, c).Committing?
  {
    var Committing(d, expiresAt, schedule) := Client(s, c);
    if d.key in s.db.keys
    then s.(clients := s.clients[c := Rechecking(d.key)])
    else s.(db := Inserted(s.db, d, expiresAt, SubjectOf(cfg, d), schedule),
            clients := s.clients[c := Answering(Accepted(d.key, d.id, false))])
  }

  function AfterRecheck(s: State, c: nat): State
    requires Client(s, c).Rechecking?
  {
    var key := Client(s, c).key;
    var response := match FindKey(s.db, key, s.now)
                    case Some(id) => Accepted(key, id, true)
                    case None => Refused(key, s.now);
    s.(clients := s.clients[c := Answering(response)])
  }

  function AfterReply(s: State, c: nat): State
    requires Client(s, c).Answering?
  {
    s.(clients := s.clients[c := Away],
       log := s.log.(responses := s.log.responses + [Client(s, c).response]))
  }

  // ----- Publishers (internal/application/outbox/publisher.go)

  /** FetchPending: the oldest unpublished rows from row `from` on, up to the limit. */
  function Oldest(outbox: seq<OutboxRow>, from: nat, limit: nat): seq<nat>
    requires from <= |outbox|
    decreases |outbox| - from
  {
    if limit == 0 || from == |outbox| then []
    else if outbox[from].published then Oldest(outbox, from + 1, limit)
    else [from] + Oldest(outbox, from + 1, limit - 1)
  }

  lemma {:induction false} OldestRows(outbox: seq<OutboxRow>, from: nat, limit: nat)
    requires from <= |outbox|
    ensures var rows := Oldest(outbox, from, limit);
            && |rows| <= limit
            && (forall i :: 0 <= i < |rows| ==> from <= rows[i] < |outbox| && !outbox[rows[i]].published)
            && (forall i, j :: 0 <= i < j < |rows| ==> rows[i] < rows[j])
            && (forall r :: from <= r < |outbox| && !outbox[r].published && r !in rows ==>
                  |rows| == limit && forall i :: 0 <= i < |rows| ==> rows[i] < r)
    decreases |outbox| - from
  {
    if limit > 0 && from < |outbox| {
      OldestRows(outbox, from + 1, if outbox[from].published then limit else limit - 1);
    }
  }

  function AfterCheck(s: State, p: nat, ok: bool): PublisherPc
    requires Publisher(s, p).Flushing? && |Publisher(s, p).todo| > 0 && Publisher(s, p).todo[0] < |s.db.outbox|
  {
    var todo := Publisher(s, p).todo;
    var r, rest := todo[0], todo[1..];
    if !ok then Flushing(rest)
    else if HasPublished(s.db.outbox, s.db.outbox[r].delivery) then Marking(r, rest)
    else Publishing(r, rest)
  }

  function AfterPublish(s: State, p: nat, write: Write): State
    requires Publisher(s, p).Publishing? && Publisher(s, p).row < |s.db.outbox|
  {
    var Publishing(r, todo) := Publisher(s, p);
    var row := s.db.outbox[r];
    s.(bus := if write.Lost? then s.bus else Sent(s.bus, row.delivery, row.subject, false),
       publishers := s.publishers[p := if write.Applied? then Marking(r, todo) else Failing(r, todo)])
  }

  // ----- Schedulers (internal/application/scheduler/service.go)

  predicate IsDueAt(scheduled: map<nat, ScheduledRow>, now: int, id: nat) {
    id in scheduled && !scheduled[id].processed && scheduled[id].at <= now
  }

  /** FetchDue: due rows in order of their time, up to the limit; rows of equal time come in any order. */
  predicate InDueOrder(scheduled: map<nat, ScheduledRow>, now: int, limit: nat, ids: seq<nat>) {
    && |ids| <= limit
    && (forall i :: 0 <= i < |ids| ==> IsDueAt(scheduled, now, ids[i]))
    && (forall i, j :: 0 <= i < j < |ids| ==> ids[i] != ids[j] && scheduled[ids[i]].at <= scheduled[ids[j]].at)
    && (forall id :: id in scheduled && IsDueAt(scheduled, now, id) && id !in ids ==>
          |ids| == limit && forall i :: 0 <= i < |ids| ==> scheduled[ids[i]].at <= scheduled[id].at)
  }

  predicate Earliest(scheduled: map<nat, ScheduledRow>, ids: set<nat>, id: nat)
    requires ids <= scheduled.Keys
  {
    id in ids && forall j :: j in ids ==> scheduled[id].at <= scheduled[j].at
  }

  lemma {:induction false} EarliestExists(scheduled: map<nat, ScheduledRow>, ids: set<nat>)
    requires ids <= scheduled.Keys && ids != {}
    ensures exists id :: Earliest(scheduled, ids, id)
  {
    var x :| x in ids;
    if ids == {x} {
      assert Earliest(scheduled, ids, x);
    } else {
      EarliestExists(scheduled, ids - {x});
      var y :| Earliest(scheduled, ids - {x}, y);
      assert Earliest(scheduled, ids, if scheduled[x].at <= scheduled[y].at then x else y);
    }
  }

  predicate IsDue(s: State, id: nat) {
    IsDueAt(s.db.scheduled, s.now, id)
  }

  predicate CanFetchDue(cfg: Config, s: State, ids: seq<nat>) {
    InDueOrder(s.db.scheduled, s.now, cfg.batch, ids)
  }

  function AfterLoad(s: State, k: nat, ok: bool): SchedulerPc
    requires Scheduler(s, k).Scanning? && |Scheduler(s, k).todo| > 0
  {
    var Scanning(started, todo) := Scheduler(s, k);
    var id, rest := todo[0], todo[1..];
    if ok && HasStatus(s.db, id, Pending)
    then Promoting(started, rest, Stamped(s.db.deliveries[id], Queued, started))
    else Scanning(started, rest)
  }

  // ----- Workers (internal/application/dispatch/service.go)

  /** handleFailure up to its first write: retry, or the dead-letter queue. */
  function AfterFailure(cfg: Config, copy: Copy, d: Row, attempt: Attempt, permanent: bool, msg: string, now: int): WorkerPc {
    var failed := Some(attempt.(error := msg, finishedAt := Some(now)));
    if permanent || d.retryCount + 1 >= cfg.maxAttempts
    then Owning(copy, MarkedDlq(d, msg, now), d, failed, RecordingDlq)
    else Owning(copy, MarkedRetrying(d, msg, now), d, failed, SavingRetry)
  }

  function NewAttempt(d: Row): Attempt {
    Attempt(d.retryCount + 1, d.updatedAt, None, "", false)
  }

  function AfterFind(s: State, w: nat, ok: bool): WorkerPc
    requires Worker(s, w).Pulled? && Worker(s, w).copy.msg < |s.bus.stream|
  {
    var copy := Worker(s, w).copy;
    var id := s.bus.stream[copy.msg].delivery;
    if !ok || id !in s.db.deliveries then Replying(copy, false)
    else
      var row := s.db.deliveries[id];
      if row.status in {Succeeded, Dlq} then Replying(copy, true)
      else if CanStart(row.status) then Claiming(copy, Stamped(row, Processing, s.now), row.status)
      else Replying(copy, false)
  }

  function AfterClaim(s: State, w: nat, write: Write): State
    requires Worker(s, w).Claiming?
  {
    var Claiming(copy, d, prev) := Worker(s, w);
    var pc := if !write.Applied? then Replying(copy, false)
              else if HasStatus(s.db, d.id, prev) then Owning(copy, d, d, None, Gating)
              else Replying(copy, true);
    s.(db := if write.Lost? then s.db else UpdatedIf(s.db, d, prev),
       workers := s.workers[w := pc])
  }

  function AfterGate(cfg: Config, s: State, w: nat, gate: GateResult): WorkerPc
    requires Worker(s, w).Owning?
  {
    var Owning(copy, d, base, _, _) := Worker(s, w);
    match gate
    case NoProvider => Owning(copy, MarkedDlq(d, "no provider for channel", d.updatedAt), d, None, SavingDlq)
    case Tripped => AfterFailure(cfg, copy, d, NewAttempt(d), false, "transient error", s.now)
    case Cleared => Owning(copy, d, d, Some(NewAttempt(d)), Sending)
  }

  function AfterSend(cfg: Config, s: State, w: nat, result: SendResult): State
    requires Worker(s, w).Owning? && Worker(s, w).attempt.Some?
  {
    var Owning(copy, d, base, attempt, _) := Worker(s, w);
    var pc := match result
              case Delivered => Owning(copy, MarkedSucceeded(d, s.now), d, attempt, SavingSuccess)
              case TransientError(msg) => AfterFailure(cfg, copy, d, attempt.value, false, msg, s.now)
              case PermanentError(msg) => AfterFailure(cfg, copy, d, attempt.value, true, msg, s.now);
    s.(workers := s.workers[w := pc],
       log := s.log.(sends := s.log.sends + [SendEvent(d.id, s.now, result.Delivered?)]))
  }

  predicate AtRecord(pc: WorkerPc) {
    || (pc.Owning? && pc.stage == RecordingDlq && pc.attempt.Some?)
    || (pc.Closing? && pc.rest in {RecordingSuccess, RecordingRetry} && pc.attempt.Some?)
  }

  function AfterRecord(s: State, w: nat, write: Write): State
    requires AtRecord(Worker(s, w))
  {
    var pc := Worker(s, w);
    var next := if !write.Applied? then Replying(pc.copy, false)
                else if pc.Owning? then pc.(stage := SavingDlq)
                else if pc.rest == RecordingSuccess then pc.(rest := Auditing)
                else Replying(pc.copy, false);
    s.(db := if write.Lost? then s.db else WithAttempt(s.db, pc.d.id, pc.attempt.value),
       workers := s.workers[w := next])
  }

  predicate AtSave(pc: WorkerPc) {
    pc.Owning? && pc.stage in {SavingSuccess, SavingRetry, SavingDlq}
  }

  function RestAfter(stage: Stage): Rest {
    match stage
    case SavingSuccess => RecordingSuccess
    case SavingRetry => RecordingRetry
    case _ => PublishingDlq
  }

  function AfterSave(s: State, w: nat, write: Write): State
    requires AtSave(Worker(s, w))
  {
    var Owning(copy, d, base, attempt, stage) := Worker(s, w);
    var next := if write.Applied? then Closing(copy, d, attempt, RestAfter(stage)) else Replying(copy, false);
    s.(db := if write.Lost? then s.db else Updated(s.db, d),
       workers := s.workers[w := next])
  }

  // ----- Replays (internal/application/dispatch/service.go)

  predicate ReplayActive(pc: ReplayPc, id: nat) {
    (pc.Saving? && pc.d.id == id) || (pc.Announcing? && pc.id == id)
  }

  // ----- The transition relation

  predicate ClientCan(s: State, c: nat, op: ClientOp) {
    match op
    case Lookup(_) => Client(s, c).Away?
    case Commit => Client(s, c).Committing?
    case Recheck => Client(s, c).Rechecking?
    case Answer => Client(s, c).Answering?
    case Abandon => true
  }

  function ClientDoes(cfg: Config, s: State, c: nat, op: ClientOp): State
    requires ClientCan(s, c, op)
  {
    match op
    case Lookup(req) => AfterLookup(cfg, s, c, req)
    case Commit => AfterCommit(cfg, s, c)
    case Recheck => AfterRecheck(s, c)
    case Answer => AfterReply(s, c)
    case Abandon => s.(clients := s.clients[c := Away])
  }

  predicate PublisherCan(s: State, p: nat, op: PublisherOp) {
    var pc := Publisher(s, p);
    match op
    case Fetch => pc.Waiting?
    case Check(_) => pc.Flushing? && |pc.todo| > 0 && pc.todo[0] < |s.db.outbox|
    case Publish(_) => pc.Publishing? && pc.row < |s.db.outbox|
    case Mark(_) => pc.Marking? && pc.row < |s.db.outbox|
    case MarkFailed(_) => pc.Failing? && pc.row < |s.db.outbox|
    case EndFlush => pc == Flushing([])
    case Halt => true
  }

  function PublisherDoes(cfg: Config, s: State, p: nat, op: PublisherOp): State
    requires PublisherCan(s, p, op)
  {
    var pc := Publisher(s, p);
    match op
    case Fetch => s.(publishers := s.publishers[p := Flushing(Oldest(s.db.outbox, 0, cfg.batch))])
    case Check(ok) => s.(publishers := s.publishers[p := AfterCheck(s, p, ok)])
    case Publish(write) => AfterPublish(s, p, write)
    case Mark(write) =>
      s.(db := if write.Lost? then s.db else WithPublished(s.db, pc.row),
         publishers := s.publishers[p := Flushing(pc.todo)])
    case MarkFailed(write) =>
      s.(db := if write.Lost? then s.db else WithFailure(s.db, pc.row),
         publishers := s.publishers[p := Flushing(pc.todo)])
    case EndFlush => s.(publishers := s.publishers[p := Waiting])
    case Halt => s.(publishers := s.publishers[p := Waiting])
  }

  predicate SchedulerCan(cfg: Config, s: State, k: nat, op: SchedulerOp) {
    var pc := Scheduler(s, k);
    match op
    case FetchDue(ids) => pc.Sleeping? && CanFetchDue(cfg, s, ids) && (cfg.oneScheduler ==> k == 0)
    case Load(_) => pc.Scanning? && |pc.todo| > 0
    case Promote(_) => pc.Promoting?
    case Enqueue(_) => pc.Enqueuing?
    case MarkDone(_) => pc.Finishing?
    case EndTick => pc.Scanning? && pc.todo == []
    case Restart => true
  }

  function SchedulerDoes(cfg: Config, s: State, k: nat, op: SchedulerOp): State
    requires SchedulerCan(cfg, s, k, op)
  {
    var pc := Scheduler(s, k);
    match op
    case FetchDue(ids) => s.(schedulers := s.schedulers[k := Scanning(s.now, ids)])
    case Load(ok) => s.(schedulers := s.schedulers[k := AfterLoad(s, k, ok)])
    case Promote(write) =>
      s.(db := if write.Lost? then s.db else Updated(s.db, pc.d),
         schedulers := s.schedulers[k := if write.Applied? then Enqueuing(pc.started, pc.todo, pc.d) else Sleeping])
    case Enqueue(write) =>
      s.(db := if write.Lost? then s.db else Enqueued(s.db, pc.d.id, SubjectOf(cfg, pc.d)),
         schedulers := s.schedulers[k := if write.Applied? then Finishing(pc.started, pc.todo, pc.d.id) else Sleeping])
    case MarkDone(write) =>
      s.(db := if write.Lost? then s.db else WithProcessed(s.db, pc.id),
         schedulers := s.schedulers[k := if write.Applied? then Scanning(pc.started, pc.todo) else Sleeping])
    case EndTick => s.(schedulers := s.schedulers[k := Sleeping])
    case Restart => s.(schedulers := s.schedulers[k := Sleeping])
  }

  /** The copy is not in the hands of any worker. */
  predicate Unheld(s: State, copy: Copy) {
    forall v :: v in s.workers && !s.workers[v].Free? ==> s.workers[v].copy != copy
  }

  predicate WorkerCan(cfg: Config, s: State, w: nat, op: WorkerOp) {
    var pc := Worker(s, w);
    match op
    case Pull(copy) => pc.Free? && Outstanding(cfg, s.bus, copy) && (cfg.exclusiveHold ==> Unheld(s, copy))
    case Find(_) => pc.Pulled? && pc.copy.msg < |s.bus.stream|
    case Claim(_) => pc.Claiming?
    case Gate(_) => pc.Owning? && pc.stage == Gating
    case Send(_) => pc.Owning? && pc.stage == Sending && pc.attempt.Some?
    case Record(_) => AtRecord(pc)
    case Save(_) => AtSave(pc)
    case PublishDead(_) => pc.Closing? && pc.rest == PublishingDlq
    case Audit(_) => pc.Closing? && pc.rest == Auditing
    case Reply => pc.Replying?
    case Crash => true
  }

  function WorkerDoes(cfg: Config, s: State, w: nat, op: WorkerOp): State
    requires WorkerCan(cfg, s, w, op)
  {
    var pc := Worker(s, w);
    match op
    case Pull(copy) => s.(workers := s.workers[w := Pulled(copy)])
    case Find(ok) => s.(workers := s.workers[w := AfterFind(s, w, ok)])
    case Claim(write) => AfterClaim(s, w, write)
    case Gate(gate) => s.(workers := s.workers[w := AfterGate(cfg, s, w, gate)])
    case Send(result) => AfterSend(cfg, s, w, result)
    case Record(write) => AfterRecord(s, w, write)
    case Save(write) => AfterSave(s, w, write)
    case PublishDead(write) =>
      s.(bus := if write.Lost? then s.bus else DeadLettered(s.bus, pc.d),
         workers := s.workers[w := pc.(rest := Auditing)])
    case Audit(ok) => s.(workers := s.workers[w := Replying(pc.copy, ok)])
    case Reply =>
      s.(bus := if pc.ack then s.bus.(acked := s.bus.acked + {pc.copy}) else s.bus,
         workers := s.workers[w := Free])
    case Crash => s.(workers := s.workers[w := Free])
  }

  /** No replay of the delivery is between its read and its publish. */
  predicate NotReplaying(s: State, id: nat) {
    forall q :: q in s.replays ==> !ReplayActive(s.replays[q], id)
  }

  predicate ReplayCan(cfg: Config, s: State, r: nat, op: ReplayOp) {
    var pc := Replay(s, r);
    match op
    case Open(id) =>
      && pc.Off? && id in s.db.deliveries && CanReplay(s.db.deliveries[id].status)
      && (cfg.serialReplays ==> NotReplaying(s, id))
    case Requeue(_) => pc.Saving?
    case Announce(_) => pc.Announcing?
    case Abort => true
  }

  function ReplayDoes(cfg: Config, s: State, r: nat, op: ReplayOp): State
    requires ReplayCan(cfg, s, r, op)
  {
    var pc := Replay(s, r);
    match op
    case Open(id) =>
      s.(replays := s.replays[r := Saving(Stamped(s.db.deliveries[id], Queued, s.now).(retryCount := 0))])
    case Requeue(write) =>
      s.(db := if write.Lost? then s.db else Updated(s.db, pc.d),
         replays := s.replays[r := if write.Applied? then Announcing(pc.d.id, SubjectOf(cfg, pc.d)) else Off])
    case Announce(write) =>
      s.(bus := if write.Lost? then s.bus else Sent(s.bus, pc.id, pc.subject, true),
         replays := s.replays[r := Off])
    case Abort => s.(replays := s.replays[r := Off])
  }

  predicate Enabled(cfg: Config, s: State, a: Action) {
    match a
    case Tick(now) => s.now <= now
    case ByClient(c, op) => ClientCan(s, c, op)
    case ByPublisher(p, op) => PublisherCan(s, p, op)
    case ByScheduler(k, op) => SchedulerCan(cfg, s, k, op)
    case ByWorker(w, op) => WorkerCan(cfg, s, w, op)
    case ByReplay(r, op) => ReplayCan(cfg, s, r, op)
  }

  function Apply(cfg: Config, s: State, a: Action): State
    requires Enabled(cfg, s, a)
  {
    match a
    case Tick(now) => s.(now := now)
    case ByClient(c, op) => ClientDoes(cfg, s, c, op)
    case ByPublisher(p, op) => PublisherDoes(cfg, s, p, op)
    case ByScheduler(k, op) => SchedulerDoes(cfg, s, k, op)
    case ByWorker(w, op) => WorkerDoes(cfg, s, w, op)
    case ByReplay(r, op) => ReplayDoes(cfg, s, r, op)
  }

  /** The state a run from `s` reaches, or None if one of its actions was not enabled. */
  function RunFrom(cfg: Config, s: State, acts: seq<Action>): Option<State> {
    if acts == [] then Some(s)
    else
      match RunFrom(cfg, s, acts[..|acts| - 1])
      case None => None
      case Some(t) =>
        var a := acts[|acts| - 1];
        if Enabled(cfg, t, a) then Some(Apply(cfg, t, a)) else None
  }

  ghost predicate Reachable(cfg: Config, s: State) {
    exists acts :: RunFrom(cfg, INIT, acts) == Some(s)
  }

  lemma RunSnoc(cfg: Config, s: State, acts: seq<Action>, t: State, a: Action)
    requires RunFrom(cfg, s, acts) == Some(t) && Enabled(cfg, t, a)
    ensures RunFrom(cfg, s, acts + [a]) == Some(Apply(cfg, t, a))
  {
    assert (acts + [a])[..|acts|] == acts;
  }

  lemma ReachStep(cfg: Config, s: State, a: Action)
    requires Reachable(cfg, s) && Enabled(cfg, s, a)
    ensures Reachable(cfg, Apply(cfg, s, a))
  {
    var acts :| RunFrom(cfg, INIT, acts) == Some(s);
    RunSnoc(cfg, INIT, acts, s, a);
  }

  // ----- Reaching one state from another

  ghost predicate ClosedUnderSteps(cfg: Config, p: iset<State>) {
    forall s, a :: s in p && Enabled(cfg, s, a) ==> Apply(cfg, s, a) in p
  }

  /** `t` is in every set of states that holds `s` and that no step leaves. */
  ghost predicate Reaches(cfg: Config, s: State, t: State) {
    forall p :: ClosedUnderSteps(cfg, p) && s in p ==> t in p
  }

  lemma ReachesStep(cfg: Config, s: State, t: State, a: Action)
    requires Reaches(cfg, s, t) && Enabled(cfg, t, a)
    ensures Reaches(cfg, s, Apply(cfg, t, a))
  {
  }

  lemma ReachesOn(cfg: Config, s: State, t: State, u: State)
    requires Reaches(cfg, s, t) && Reaches(cfg, t, u)
    ensures Reaches(cfg, s, u)
  {
  }

  lemma {:induction false} RunReaches(cfg: Config, s: State, acts: seq<Action>)
    requires RunFrom(cfg, s, acts).Some?
    ensures Reaches(cfg, s, RunFrom(cfg, s, acts).value)
  {
    if acts != [] {
      var before := acts[..|acts| - 1];
      RunReaches(cfg, s, before);
      ReachesStep(cfg, s, RunFrom(cfg, s, before).value, acts[|acts| - 1]);
    }
  }

  /** One state reaches another only by a run. */
  lemma RunOf(cfg: Config, s: State, t: State) returns (acts: seq<Action>)
    requires Reaches(cfg, s, t)
    ensures RunFrom(cfg, s, acts) == Some(t)
  {
    var p := iset u | exists acts :: RunFrom(cfg, s, acts) == Some(u);
    assert RunFrom(cfg, s, []) == Some(s);
    forall u, a | u in p && Enabled(cfg, u, a) ensures Apply(cfg, u, a) in p {
      var acts :| RunFrom(cfg, s, acts) == Some(u);
      RunSnoc(cfg, s, acts, u, a);
    }
    assert ClosedUnderSteps(cfg, p) && s in p;
    acts :| RunFrom(cfg, s, acts) == Some(t);
  }

  lemma ReachesIsReachable(cfg: Config, s: State)
    requires Reaches(cfg, INIT, s)
    ensures Reachable(cfg, s)
  {
    var acts := RunOf(cfg, INIT, s);
  }
}
