/** The entities of the job delivery protocol: job rows, broker messages, cache entries, metrics. */
module JobModel {

  datatype Option<+T> = None | Some(value: T)

  // Identifiers are opaque: the code only ever compares them.
  type JobId = nat
  type CeleryId = nat
  type TaskName = nat
  type Payload = nat

  /** An idempotency key is either chosen by a client or built from a uuid by a DLQ retry. */
  datatype Key = Client(text: nat) | DlqRetry(uuid: nat)

  /** A JSON result; Null is the value whose serialised form is the literal "null". */
  datatype Value = Null | Json(text: nat)

  datatype Status = PENDING | RUNNING | COMPLETED | FAILED | CANCELLED | DLQ

  datatype Row = Row(
    task: TaskName,
    payload: Payload,
    key: Key,
    celeryId: Option<CeleryId>,
    status: Status,
    retryCount: nat,
    executionCount: nat,
    parent: Option<JobId>,
    result: Value)

  datatype Message = Message(
    id: CeleryId,
    job: JobId,
    key: Key,
    task: TaskName,
    payload: Payload,
    retries: nat,
    eta: real)

  /** Where a message on the default queue came from. */
  datatype Origin = FromApi | FromRetry | FromRedelivery

  datatype Envelope = Envelope(msg: Message, origin: Origin, taken: bool)

  datatype DlqMessage = DlqMessage(job: JobId, task: TaskName, payload: Payload)

  datatype Entry = Entry(value: Value, expires: real)

  datatype Label = SUCCESS | RETRY | FAILURE | DLQ_RETRY
  datatype Sample = Sample(task: TaskName, tag: Label)

  datatype Config = Config(maxRetries: nat, resultTtl: nat, allowed: set<TaskName>)

  function Pow2(n: nat): (p: nat)
    ensures p >= 1
  {
    if n == 0 then 1 else 2 * Pow2(n - 1)
  }

  /** The countdown, in seconds, asked for by the attempt with retry number `r`. */
  function Countdown(r: nat): nat
  {
    Pow2(r) * 10
  }
}
