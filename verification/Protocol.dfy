/**
 The job delivery protocol as a state machine over the effects that the API and the
 workers have on the stores they share. A step is one effect; between any two steps
 any other call, delivery, crash, redelivery or passage of time may happen.
 */
module Protocol {
  import opened JobModel

  /** The shared stores: jobs table, broker, idempotency cache, metrics, uuid supply, clock. */
  datatype Store = Store(
    rows: map<JobId, Row>,       // committed rows
    pending: map<JobId, Row>,    // rows flushed by transactions that are still open
    index: map<Key, JobId>,      // the unique index on idempotency_key; open transactions count
    queue: seq<Envelope>,        // everything ever published to the default queue
    sent: map<JobId, Message>,   // what the API published for each job
    revoked: set<CeleryId>,
    dlq: seq<DlqMessage>,
    cache: map<Key, Entry>,
    jobsTotal: multiset<Sample>,
    dlqSize: nat,
    uuids: nat,                  // how many uuids have been drawn
    now: real)

  // ---------------------------------------------------------------------------
  // API calls
  // ---------------------------------------------------------------------------

  datatype Request =
    | Create(task: TaskName, payload: Payload, key: Key)
    | Cancel(job: JobId)
    | RetryDlq(job: JobId)

  datatype Reply =
    | Created(id: JobId, key: Key)    // was_created = True
    | Existing(id: JobId, key: Key)   // was_created = False
    | Cancelled
    | NotFound
    | Conflict(current: Status)
    | NotAllowed

  /** How far a call has come. */
  datatype CallPhase =
    | Opened
    | Absent                                   // create: the key was not found
    | Original(row: Row)                       // retry: the DLQ row was read
    | PendingSeen(celeryId: Option<CeleryId>)  // cancel: status PENDING was read
    | Revoking                                 // cancel: the revoke is out
    | Flushed(id: JobId, row: Row)
    | Sent(id: JobId, row: Row)
    | Committed(id: JobId, row: Row, counted: bool)  // counted: the dlq_retry metric is out
    | Replied(reply: Reply)
    | Aborted(sent: Option<Key>)               // rolled back; the key of the message already out, if any
    | Errored(id: JobId, row: Row, counted: bool)    // an exception after the commit

  datatype Call = Call(request: Request, phase: CallPhase)

  /** A row as a call inserts it. */
  function NewRow(task: TaskName, payload: Payload, key: Key, retryCount: nat, parent: Option<JobId>): Row
  {
    Row(task, payload, key, None, PENDING, retryCount, 0, parent, Null)
  }

  /** SELECT ... WHERE idempotency_key = key, which sees committed rows only. */
  function FindByKey(s: Store, key: Key): Option<JobId>
  {
    if key in s.index && s.index[key] in s.rows then Some(s.index[key]) else None
  }

  /** Flush of a new row: refused by a committed duplicate, blocked by an open one. */
  function Flush(s: Store, id: JobId, row: Row, drawn: nat, here: CallPhase): (Store, CallPhase)
  {
    if row.key in s.index then
      (s, if s.index[row.key] in s.rows then Aborted(None) else here)
    else
      (s.(pending := s.pending[id := row], index := s.index[row.key := id], uuids := s.uuids + drawn),
       Flushed(id, row))
  }

  function RollBack(s: Store, id: JobId, key: Key): Store
  {
    s.(pending := s.pending - {id}, index := s.index - {key})
  }

  /** send_task: the message the API publishes for a job. */
  function Publish(s: Store, id: JobId, row: Row): (Store, CallPhase)
  {
    var msg := Message(s.uuids, id, row.key, row.task, row.payload, 0, s.now);
    (s.(queue := s.queue + [Envelope(msg, FromApi, false)], sent := s.sent[id := msg], uuids := s.uuids + 1),
     Sent(id, row.(celeryId := Some(s.uuids))))
  }

  function Commit(s: Store, id: JobId, row: Row): Store
  {
    s.(pending := s.pending - {id}, rows := s.rows[id := row])
  }

  function Count(s: Store, task: TaskName, tag: Label): Store
  {
    s.(jobsTotal := s.jobsTotal + multiset{Sample(task, tag)})
  }

  /** The first step of a call: the whitelist and the SELECT, no write. */
  function Look(c: Config, s: Store, r: Request): CallPhase
  {
    match r
    case Create(task, _, key) =>
      if task !in c.allowed then Replied(NotAllowed)
      else (match FindByKey(s, key) case Some(id) => Replied(Existing(id, key)) case None => Absent)
    case Cancel(job) =>
      if job !in s.rows then Replied(NotFound)
      else if s.rows[job].status != PENDING then Replied(Conflict(s.rows[job].status))
      else PendingSeen(s.rows[job].celeryId)
    case RetryDlq(job) =>
      if job !in s.rows then Replied(NotFound)
      else if s.rows[job].status != DLQ then Replied(Conflict(s.rows[job].status))
      else Original(s.rows[job])
  }

  function SetCancelled(s: Store, job: JobId): Store
  {
    if job in s.rows then s.(rows := s.rows[job := s.rows[job].(status := CANCELLED)]) else s
  }

  /** One step of a call that meets no exception. */
  function CallProceeds(c: Config, s: Store, call: Call): (Store, CallPhase)
  {
    match call.phase
    case Opened => (s, Look(c, s, call.request))
    case Absent =>
      if call.request.Create? then
        Flush(s, s.uuids, NewRow(call.request.task, call.request.payload, call.request.key, 0, None), 1, Absent)
      else (s, Absent)
    case Original(row) =>
      if call.request.RetryDlq? then
        Flush(s, s.uuids + 1,
              NewRow(row.task, row.payload, DlqRetry(s.uuids), row.retryCount + 1, Some(call.request.job)),
              2, call.phase)
      else (s, call.phase)
    case PendingSeen(id) =>
      (if id.Some? then s.(revoked := s.revoked + {id.value}) else s, Revoking)
    case Revoking =>
      if call.request.Cancel? then (SetCancelled(s, call.request.job), Replied(Cancelled)) else (s, Revoking)
    case Flushed(id, row) => Publish(s, id, row)
    case Sent(id, row) => (Commit(s, id, row), Committed(id, row, false))
    case Committed(id, row, counted) =>
      if call.request.RetryDlq? && !counted then (Count(s, row.task, DLQ_RETRY), Committed(id, row, true))
      else (s, Replied(Created(id, row.key)))
    case _ => (s, call.phase)
  }

  /** An exception at this point of the call: the session rolls the open transaction back. */
  function CallRaises(s: Store, call: Call): (Store, CallPhase)
  {
    match call.phase
    case Flushed(id, row) => (RollBack(s, id, row.key), Aborted(None))
    case Sent(id, row) => (RollBack(s, id, row.key), Aborted(Some(row.key)))
    case Committed(id, row, counted) => (s, Errored(id, row, counted))
    case Replied(_) => (s, call.phase)
    case Aborted(_) => (s, call.phase)
    case Errored(_, _, _) => (s, call.phase)
    case _ => (s, Aborted(None))
  }

  function CallStep(c: Config, s: Store, call: Call, raises: bool): (Store, CallPhase)
  {
    if raises then CallRaises(s, call) else CallProceeds(c, s, call)
  }

  /** estimated_next_run: given for PENDING rows with a positive retry_count, which counts DLQ retries. */
  function EstimatedNextRun(row: Row, now: real): Option<real>
  {
    if row.status == PENDING && row.retryCount > 0 then Some(now + (Pow2(row.retryCount) * 10) as real) else None
  }

  // ---------------------------------------------------------------------------
  // Worker attempts
  // ---------------------------------------------------------------------------

  /** What the subclass's execute() does. */
  datatype Outcome = Success(value: Value) | ValidationError | OtherError

  /** Who called on_failure: Celery after the last retry, run() on a ValidationError, Celery after that. */
  datatype Pass = Exhausted | OwnCall | CeleryCall

  datatype End = Returned(value: Value, hit: bool) | Requeued | Raised(pass: Pass)

  /** The effect that a delivery will have next. */
  datatype Phase =
    | Starting                              // before_start: status RUNNING, execution_count + 1
    | Checking                              // run: idempotency check
    | Executing                             // run: execute()
    | Completing(value: Value, hit: bool)   // on_success: status COMPLETED
    | Counting(value: Value, hit: bool)     // on_success: success metric
    | Storing(value: Value, hit: bool)      // on_success: setex
    | Requeueing                            // retry: publish with retries + 1
    | CountingRetry                         // on_retry: retry metric
    | DlqSending(pass: Pass)                // on_failure: DLQ send
    | WritingFailed(pass: Pass)             // on_failure: status FAILED
    | WritingDlq(pass: Pass)                // on_failure: status DLQ
    | CountingFailed(pass: Pass)            // on_failure: failed metric
    | Gauging(pass: Pass)                   // on_failure: DLQ gauge
    | Acking(end: End)                      // late ack
    | Finished(end: End)
    | Discarded                             // revoked before it started

  datatype Life = Alive | Crashed | Reclaimed

  /** One delivery, kept for ever; `counted` and `tried` record the history of its hooks. */
  datatype Delivery = Delivery(
    msg: Message,
    start: real,
    phase: Phase,
    life: Life,
    counted: bool,    // its before_start write reached a row
    tried: bool)      // it attempted a DLQ send

  datatype Choice = Choice(dbOk: bool, dlqOk: bool, outcome: Outcome)

  /** _update_job_status: one UPDATE by id; a failure is swallowed, a missing row matches nothing. */
  function UpdateJobStatus(s: Store, job: JobId, status: Status, result: Value, increment: bool, ok: bool): Store
  {
    if ok && job in s.rows then
      var row := s.rows[job];
      s.(rows := s.rows[job := row.(
        status := status,
        result := if result.Null? then row.result else result,
        executionCount := if increment then row.executionCount + 1 else row.executionCount)])
    else s
  }

  /** _check_idempotency: a missing or expired entry is a miss; a stored null is a hit. */
  function CheckIdempotency(s: Store, key: Key): Option<Value>
  {
    if key in s.cache && s.now < s.cache[key].expires then Some(s.cache[key].value) else None
  }

  function StoreResult(c: Config, s: Store, key: Key, value: Value): Store
  {
    s.(cache := s.cache[key := Entry(value, s.now + c.resultTtl as real)])
  }

  function SendToDlq(s: Store, msg: Message, ok: bool): Store
  {
    if ok then s.(dlq := s.dlq + [DlqMessage(msg.job, msg.task, msg.payload)]) else s
  }

  function NextRetry(msg: Message, now: real): Message
  {
    msg.(retries := msg.retries + 1, eta := now + Countdown(msg.retries) as real)
  }

  function Requeue(s: Store, msg: Message): Store
  {
    s.(queue := s.queue + [Envelope(NextRetry(msg, s.now), FromRetry, false)])
  }

  /** Where run() goes after execute(). */
  function AfterExecute(c: Config, retries: nat, outcome: Outcome): Phase
  {
    match outcome
    case Success(v) => Completing(v, false)
    case ValidationError => DlqSending(OwnCall)
    case OtherError => if retries >= c.maxRetries then DlqSending(Exhausted) else Requeueing
  }

  /** The phase after `p`. */
  function NextPhase(c: Config, s: Store, msg: Message, p: Phase, outcome: Outcome): Phase
  {
    match p
    case Starting => Checking
    case Checking =>
      (match CheckIdempotency(s, msg.key) case Some(v) => Completing(v, true) case None => Executing)
    case Executing => AfterExecute(c, msg.retries, outcome)
    case Completing(v, hit) => Counting(v, hit)
    case Counting(v, hit) => Storing(v, hit)
    case Storing(v, hit) => Acking(Returned(v, hit))
    case Requeueing => CountingRetry
    case CountingRetry => Acking(Requeued)
    case DlqSending(pass) => WritingFailed(pass)
    case WritingFailed(pass) => WritingDlq(pass)
    case WritingDlq(pass) => CountingFailed(pass)
    case CountingFailed(pass) => Gauging(pass)
    case Gauging(pass) => if pass.OwnCall? then DlqSending(CeleryCall) else Acking(Raised(pass))
    case Acking(end) => Finished(end)
    case _ => p
  }

  /** The effect of phase `p` on the stores. */
  function Effect(c: Config, s: Store, msg: Message, p: Phase, x: Choice): Store
  {
    match p
    case Starting => UpdateJobStatus(s, msg.job, RUNNING, Null, true, x.dbOk)
    case Completing(v, _) => UpdateJobStatus(s, msg.job, COMPLETED, v, false, x.dbOk)
    case Counting(_, _) => Count(s, msg.task, SUCCESS)
    case Storing(v, _) => StoreResult(c, s, msg.key, v)
    case Requeueing => Requeue(s, msg)
    case CountingRetry => Count(s, msg.task, RETRY)
    case DlqSending(_) => SendToDlq(s, msg, x.dlqOk)
    case WritingFailed(_) => UpdateJobStatus(s, msg.job, FAILED, Null, false, x.dbOk)
    case WritingDlq(_) => UpdateJobStatus(s, msg.job, DLQ, Null, false, x.dbOk)
    case CountingFailed(_) => Count(s, msg.task, FAILURE)
    case Gauging(_) => s.(dlqSize := s.dlqSize + 1)
    case _ => s
  }

  function Advance(c: Config, s: Store, d: Delivery, x: Choice): Delivery
  {
    d.(phase := NextPhase(c, s, d.msg, d.phase, x.outcome),
       counted := d.counted || (d.phase.Starting? && x.dbOk && d.msg.job in s.rows),
       tried := d.tried || d.phase.DlqSending?)
  }

  // ---------------------------------------------------------------------------
  // The whole system
  // ---------------------------------------------------------------------------

  datatype World = World(store: Store, calls: seq<Call>, deliveries: seq<Delivery>)

  datatype Event =
    | Open(request: Request)           // a request arrives
    | Api(call: nat, raises: bool)     // one step of a call
    | Deliver(envelope: nat)           // the broker hands a message to a worker
    | Work(delivery: nat, x: Choice)   // one step of a delivery
    | Crash(delivery: nat)             // the worker process dies
    | Redeliver(delivery: nat)         // the broker puts an unacknowledged message back
    | Tick(seconds: real)

  predicate Unacked(d: Delivery)
  {
    !d.phase.Finished? && !d.phase.Discarded?
  }

  predicate Active(d: Delivery)
  {
    d.life.Alive? && Unacked(d)
  }

  /** A delivery that was not discarded is an attempt: its before_start ran or is about to run. */
  predicate Attempt(d: Delivery)
  {
    !d.phase.Discarded?
  }

  /** Nobody can name a uuid that has not been drawn. */
  predicate KnownKey(key: Key, uuids: nat)
  {
    key.DlqRetry? ==> key.uuid < uuids
  }

  predicate Enabled(w: World, e: Event)
  {
    match e
    case Open(r) => r.Create? ==> KnownKey(r.key, w.store.uuids)
    case Api(i, _) => i < |w.calls|
    case Deliver(q) =>
      q < |w.store.queue| && !w.store.queue[q].taken && w.store.queue[q].msg.eta <= w.store.now
    case Work(i, _) => i < |w.deliveries| && Active(w.deliveries[i])
    case Crash(i) => i < |w.deliveries| && Active(w.deliveries[i])
    case Redeliver(i) =>
      i < |w.deliveries| && Unacked(w.deliveries[i]) && !w.deliveries[i].life.Reclaimed?
    case Tick(t) => t >= 0.0
  }

  /** The delivery that a taken envelope becomes: a revoked id is acknowledged unexecuted. */
  function NewDelivery(s: Store, msg: Message): Delivery
  {
    Delivery(msg, s.now, if msg.id in s.revoked then Discarded else Starting, Alive, false, false)
  }

  function Take(s: Store, q: nat): Store
    requires q < |s.queue|
  {
    s.(queue := s.queue[q := s.queue[q].(taken := true)])
  }

  function PutBack(s: Store, msg: Message): Store
  {
    s.(queue := s.queue + [Envelope(msg, FromRedelivery, false)])
  }

  /** An event that is not enabled changes nothing, so every sequence of events is a schedule. */
  function Step(c: Config, w: World, e: Event): World
  {
    if !Enabled(w, e) then w
    else match e
    case Open(r) => w.(calls := w.calls + [Call(r, Opened)])
    case Api(i, raises) =>
      var (s, phase) := CallStep(c, w.store, w.calls[i], raises);
      w.(store := s, calls := w.calls[i := w.calls[i].(phase := phase)])
    case Deliver(q) =>
      w.(store := Take(w.store, q),
         deliveries := w.deliveries + [NewDelivery(w.store, w.store.queue[q].msg)])
    case Work(i, x) =>
      var d := w.deliveries[i];
      w.(store := Effect(c, w.store, d.msg, d.phase, x),
         deliveries := w.deliveries[i := Advance(c, w.store, d, x)])
    case Crash(i) => w.(deliveries := w.deliveries[i := w.deliveries[i].(life := Crashed)])
    case Redeliver(i) =>
      var d := w.deliveries[i];
      w.(store := PutBack(w.store, d.msg),
         deliveries := w.deliveries[i := d.(life := if d.life.Crashed? then Reclaimed else d.life)])
    case Tick(t) => w.(store := w.store.(now := w.store.now + t))
  }

  const EMPTY_STORE := Store(map[], map[], map[], [], map[], {}, [], map[], multiset{}, 0, 0, 0.0)
  const START := World(EMPTY_STORE, [], [])

  function Run(c: Config, es: seq<Event>): World
  {
    if es == [] then START else Step(c, Run(c, es[..|es| - 1]), es[|es| - 1])
  }
}
