/**
 The worker's task wrapper as it is written: hooks that act on the stores one effect after the
 other. An attempt that nothing interrupts has exactly the effect of the protocol's steps.
 */
module BaseTaskModel {
  import opened JobModel
  import opened Protocol
  import opened Stores

  /** How run() ends: by return, by Celery's Retry, or by an exception. */
  datatype RunResult = Value(value: JobModel.Value, hit: bool) | RetryRaised | ExceptionRaised(validation: bool)

  /** Step `k` of an uninterrupted attempt and all later ones, as long as it is unfinished. */
  ghost function WorkFrom(c: Config, s: Store, d: Delivery, xs: seq<Choice>, k: nat): (Store, Delivery)
    decreases |xs| - k
  {
    if k >= |xs| || !Active(d) then (s, d)
    else WorkFrom(c, Effect(c, s, d.msg, d.phase, xs[k]), Advance(c, s, d, xs[k]), xs, k + 1)
  }

  /** on_failure's five effects, on the stores. */
  function Failed(s: Store, msg: Message, dlqOk: bool, failedOk: bool, dlqWriteOk: bool): Store
  {
    var a := SendToDlq(s, msg, dlqOk);
    var b := UpdateJobStatus(a, msg.job, FAILED, Null, false, failedOk);
    var e := UpdateJobStatus(b, msg.job, DLQ, Null, false, dlqWriteOk);
    var f := Count(e, msg.task, FAILURE);
    f.(dlqSize := f.dlqSize + 1)
  }

  /** on_success's three effects, on the stores. */
  function Succeeded(c: Config, s: Store, msg: Message, value: JobModel.Value, ok: bool): Store
  {
    StoreResult(c, Count(UpdateJobStatus(s, msg.job, COMPLETED, value, false, ok), msg.task, SUCCESS), msg.key, value)
  }

  class BaseTask {
    const deployment: Deployment
    const request: Message   // self.request: id, kwargs and retries

    constructor (deployment: Deployment, request: Message)
      ensures this.deployment == deployment && this.request == request
    {
      this.deployment := deployment;
      this.request := request;
    }

    /** _update_job_status: whatever goes wrong is logged and swallowed. */
    method UpdateStatus(status: Status, result: JobModel.Value, increment: bool, ok: bool)
      modifies deployment.db
      ensures deployment.State() == UpdateJobStatus(old(deployment.State()), request.job, status, result, increment, ok)
    {
      var db := deployment.db;
      if ok {
        db.Update(request.job, status, result, increment);
        assert db.rows == UpdateJobStatus(old(deployment.State()), request.job, status, result, increment, ok).rows;
      }
    }

    /** _check_idempotency */
    method CheckIdempotency() returns (cached: Option<JobModel.Value>)
      ensures cached == Protocol.CheckIdempotency(deployment.State(), request.key)
    {
      cached := deployment.cache.Get(request.key, deployment.host.now);
    }

    /** _store_idempotency_result */
    method StoreResult(value: JobModel.Value)
      modifies deployment.cache
      ensures deployment.State() == Protocol.StoreResult(deployment.config, old(deployment.State()), request.key, value)
    {
      deployment.cache.SetEx(request.key, value, deployment.host.now + deployment.config.resultTtl as real);
    }

    /** _send_to_dlq, with the except branch around its call */
    method SendToDlq(ok: bool)
      modifies deployment.broker
      ensures deployment.State() == Protocol.SendToDlq(old(deployment.State()), request, ok)
    {
      if ok {
        deployment.broker.SendToDlq(DlqMessage(request.job, request.task, request.payload));
      }
    }

    /** retry: the same message with one more retry, due after the countdown. */
    method Retry()
      modifies deployment.broker
      ensures deployment.State() == Requeue(old(deployment.State()), request)
    {
      var countdown := Pow2(request.retries) * 10;
      var eta := deployment.host.now + countdown as real;
      deployment.broker.Enqueue(request.(retries := request.retries + 1, eta := eta), FromRetry);
    }

    /** before_start */
    method BeforeStart(ok: bool)
      modifies deployment.db
      ensures deployment.State() == UpdateJobStatus(old(deployment.State()), request.job, RUNNING, Null, true, ok)
    {
      UpdateStatus(RUNNING, Null, true, ok);
    }

    /** on_success: COMPLETED, metric, idempotency store. */
    method OnSuccess(value: JobModel.Value, ok: bool)
      modifies deployment.db, deployment.metrics, deployment.cache
      ensures deployment.State() == Succeeded(deployment.config, old(deployment.State()), request, value, ok)
    {
      UpdateStatus(COMPLETED, value, false, ok);
      deployment.metrics.Inc(request.task, SUCCESS);
      StoreResult(value);
    }

    /** on_failure: DLQ send (its failure is swallowed), FAILED, DLQ, metric, gauge. */
    method OnFailure(dlqOk: bool, failedOk: bool, dlqWriteOk: bool)
      modifies deployment.db, deployment.broker, deployment.metrics
      ensures deployment.State() == Failed(old(deployment.State()), request, dlqOk, failedOk, dlqWriteOk)
    {
      SendToDlq(dlqOk);
      UpdateStatus(FAILED, Null, false, failedOk);
      UpdateStatus(DLQ, Null, false, dlqWriteOk);
      deployment.metrics.Inc(request.task, FAILURE);
      deployment.metrics.IncDlqSize();
    }

    /** on_retry */
    method OnRetry()
      modifies deployment.metrics
      ensures deployment.State() == Count(old(deployment.State()), request.task, RETRY)
    {
      deployment.metrics.Inc(request.task, RETRY);
    }

    /** run: idempotency check, execute, and the two except branches. */
    method Run(xs: seq<Choice>) returns (r: RunResult)
      requires |xs| == 14
      modifies deployment.db, deployment.broker, deployment.metrics
      ensures RanTo(deployment.config, old(deployment.State()), deployment.State(), request, r, xs)
    {
      var cached := CheckIdempotency();
      if cached.Some? {
        return Value(cached.value, true);
      }
      match xs[2].outcome {
        case Success(value) =>
          return Value(value, false);
        case ValidationError =>
          OnFailure(xs[3].dlqOk, xs[4].dbOk, xs[5].dbOk);
          return ExceptionRaised(true);
        case OtherError =>
          if request.retries >= deployment.config.maxRetries {
            return ExceptionRaised(false);
          }
          Retry();
          return RetryRaised;
      }
    }

    /** The hook that Celery calls for this end of run(). */
    method CallHook(r: RunResult, xs: seq<Choice>) returns (end: End)
      requires |xs| == 14
      modifies deployment.db, deployment.broker, deployment.metrics, deployment.cache
      ensures (deployment.State(), end) == AfterHook(deployment.config, old(deployment.State()), request, r, xs)
    {
      match r {
        case Value(value, hit) =>
          OnSuccess(value, if hit then xs[2].dbOk else xs[3].dbOk);
          end := Returned(value, hit);
        case RetryRaised =>
          OnRetry();
          end := Requeued;
        case ExceptionRaised(validation) =>
          var k := if validation then 8 else 3;
          OnFailure(xs[k].dlqOk, xs[k + 1].dbOk, xs[k + 2].dbOk);
          end := Raised(if validation then CeleryCall else Exhausted);
      }
    }

    /**
     The whole attempt: before_start, run, the hook that Celery calls, the ack. `xs` says, step by
     step, which writes fail and what execute() does.
     */
    method Trace(ghost start: real, xs: seq<Choice>) returns (end: End)
      requires |xs| == 14
      modifies deployment.db, deployment.broker, deployment.metrics, deployment.cache
      ensures var d := Delivery(request, start, Starting, Alive, false, false);
              var (t, n) := WorkFrom(deployment.config, old(deployment.State()), d, xs, 0);
              deployment.State() == t && n.phase == Finished(end)
    {
      ghost var s := deployment.State();
      BeforeStart(xs[0].dbOk);
      ghost var s1 := deployment.State();
      var r := Run(xs);
      RunThenHook(deployment.config, s1, deployment.State(), request, r, xs);
      end := CallHook(r, xs);
      TraceIsWork(deployment.config, s, Delivery(request, start, Starting, Alive, false, false), xs);
    }
  }

  /** What run() leaves behind, by what the cache says and execute() does. */
  predicate RanTo(c: Config, s: Store, t: Store, msg: Message, r: RunResult, xs: seq<Choice>)
    requires |xs| == 14
  {
    match CheckIdempotency(s, msg.key)
    case Some(v) => r == Value(v, true) && t == s
    case None =>
      match xs[2].outcome
      case Success(v) => r == Value(v, false) && t == s
      case ValidationError =>
        r == ExceptionRaised(true) && t == Failed(s, msg, xs[3].dlqOk, xs[4].dbOk, xs[5].dbOk)
      case OtherError =>
        if msg.retries >= c.maxRetries then r == ExceptionRaised(false) && t == s
        else r == RetryRaised && t == Requeue(s, msg)
  }

  /** The effect of the hook for this end of run(). */
  function AfterHook(c: Config, t: Store, msg: Message, r: RunResult, xs: seq<Choice>): (Store, End)
    requires |xs| == 14
  {
    match r
    case Value(v, hit) => (Succeeded(c, t, msg, v, if hit then xs[2].dbOk else xs[3].dbOk), Returned(v, hit))
    case RetryRaised => (Count(t, msg.task, RETRY), Requeued)
    case ExceptionRaised(validation) =>
      if validation then (Failed(t, msg, xs[8].dlqOk, xs[9].dbOk, xs[10].dbOk), Raised(CeleryCall))
      else (Failed(t, msg, xs[3].dlqOk, xs[4].dbOk, xs[5].dbOk), Raised(Exhausted))
  }

  lemma RunThenHook(c: Config, s: Store, t: Store, msg: Message, r: RunResult, xs: seq<Choice>)
    requires |xs| == 14 && RanTo(c, s, t, msg, r, xs)
    ensures AfterHook(c, t, msg, r, xs) == AfterRun(c, s, msg, xs)
  {
  }

  /** Where the hooks leave the stores after a before_start that led to `s`. */
  function AfterRun(c: Config, s: Store, msg: Message, xs: seq<Choice>): (Store, End)
    requires |xs| == 14
  {
    match CheckIdempotency(s, msg.key)
    case Some(v) => (Succeeded(c, s, msg, v, xs[2].dbOk), Returned(v, true))
    case None =>
      match xs[2].outcome
      case Success(v) => (Succeeded(c, s, msg, v, xs[3].dbOk), Returned(v, false))
      case ValidationError =>
        (Failed(Failed(s, msg, xs[3].dlqOk, xs[4].dbOk, xs[5].dbOk), msg, xs[8].dlqOk, xs[9].dbOk, xs[10].dbOk),
         Raised(CeleryCall))
      case OtherError =>
        if msg.retries >= c.maxRetries then
          (Failed(s, msg, xs[3].dlqOk, xs[4].dbOk, xs[5].dbOk), Raised(Exhausted))
        else (Count(Requeue(s, msg), msg.task, RETRY), Requeued)
  }

  function TraceOutcome(c: Config, s: Store, msg: Message, xs: seq<Choice>): (Store, End)
    requires |xs| == 14
  {
    AfterRun(c, UpdateJobStatus(s, msg.job, RUNNING, Null, true, xs[0].dbOk), msg, xs)
  }

  // ---------------------------------------------------------------------------
  // Paths through an uninterrupted attempt
  // ---------------------------------------------------------------------------

  /** One step unrolled. */
  lemma WorkOne(c: Config, s: Store, d: Delivery, xs: seq<Choice>, k: nat)
    requires k < |xs| && Active(d)
    ensures WorkFrom(c, s, d, xs, k)
         == WorkFrom(c, Effect(c, s, d.msg, d.phase, xs[k]), Advance(c, s, d, xs[k]), xs, k + 1)
  {
  }

  /** A finished delivery steps no more. */
  lemma WorkDone(c: Config, s: Store, d: Delivery, xs: seq<Choice>, k: nat)
    requires !Active(d)
    ensures WorkFrom(c, s, d, xs, k) == (s, d)
  {
  }

  /** From Completing to the ack: on_success. */
  lemma SuccessTail(c: Config, s: Store, d: Delivery, xs: seq<Choice>, k: nat, value: JobModel.Value, hit: bool)
    requires k + 4 <= |xs| && Active(d) && d.phase == Completing(value, hit)
    ensures var (t, n) := WorkFrom(c, s, d, xs, k);
            t == Succeeded(c, s, d.msg, value, xs[k].dbOk) && n.phase == Finished(Returned(value, hit))
  {
    var s1, d1 := Effect(c, s, d.msg, d.phase, xs[k]), Advance(c, s, d, xs[k]);
    WorkOne(c, s, d, xs, k);
    var s2, d2 := Effect(c, s1, d1.msg, d1.phase, xs[k + 1]), Advance(c, s1, d1, xs[k + 1]);
    WorkOne(c, s1, d1, xs, k + 1);
    var s3, d3 := Effect(c, s2, d2.msg, d2.phase, xs[k + 2]), Advance(c, s2, d2, xs[k + 2]);
    WorkOne(c, s2, d2, xs, k + 2);
    WorkOne(c, s3, d3, xs, k + 3);
    WorkDone(c, s3, Advance(c, s3, d3, xs[k + 3]), xs, k + 4);
  }

  /** The ack. */
  lemma AckTail(c: Config, s: Store, d: Delivery, xs: seq<Choice>, k: nat, end: End)
    requires k < |xs| && Active(d) && d.phase == Acking(end)
    ensures WorkFrom(c, s, d, xs, k).0 == s && WorkFrom(c, s, d, xs, k).1.phase == Finished(end)
  {
    WorkOne(c, s, d, xs, k);
    WorkDone(c, s, Advance(c, s, d, xs[k]), xs, k + 1);
  }

  /** The five effects of one on_failure call. */
  lemma FailureTail(c: Config, s: Store, d: Delivery, xs: seq<Choice>, k: nat, pass: Pass) returns (n: Delivery)
    requires k + 5 <= |xs| && Active(d) && d.phase == DlqSending(pass)
    ensures WorkFrom(c, s, d, xs, k)
         == WorkFrom(c, Failed(s, d.msg, xs[k].dlqOk, xs[k + 1].dbOk, xs[k + 2].dbOk), n, xs, k + 5)
    ensures n.msg == d.msg && n.life == d.life
    ensures n.phase == if pass.OwnCall? then DlqSending(CeleryCall) else Acking(Raised(pass))
  {
    var s1, d1 := Effect(c, s, d.msg, d.phase, xs[k]), Advance(c, s, d, xs[k]);
    WorkOne(c, s, d, xs, k);
    var s2, d2 := Effect(c, s1, d1.msg, d1.phase, xs[k + 1]), Advance(c, s1, d1, xs[k + 1]);
    WorkOne(c, s1, d1, xs, k + 1);
    var s3, d3 := Effect(c, s2, d2.msg, d2.phase, xs[k + 2]), Advance(c, s2, d2, xs[k + 2]);
    WorkOne(c, s2, d2, xs, k + 2);
    var s4, d4 := Effect(c, s3, d3.msg, d3.phase, xs[k + 3]), Advance(c, s3, d3, xs[k + 3]);
    WorkOne(c, s3, d3, xs, k + 3);
    n := Advance(c, s4, d4, xs[k + 4]);
    WorkOne(c, s4, d4, xs, k + 4);
  }

  /** A miss and execute(): two steps that leave the stores alone. */
  lemma MissHead(c: Config, s: Store, d: Delivery, xs: seq<Choice>) returns (n: Delivery)
    requires |xs| == 14 && Active(d) && d.phase == Checking && CheckIdempotency(s, d.msg.key) == None
    ensures WorkFrom(c, s, d, xs, 1) == WorkFrom(c, s, n, xs, 3)
    ensures n.msg == d.msg && n.life == d.life && n.phase == AfterExecute(c, d.msg.retries, xs[2].outcome)
  {
    var d1 := Advance(c, s, d, xs[1]);
    WorkOne(c, s, d, xs, 1);
    n := Advance(c, s, d1, xs[2]);
    WorkOne(c, s, d1, xs, 2);
  }

  lemma RetryTail(c: Config, s: Store, d: Delivery, xs: seq<Choice>)
    requires |xs| == 14 && Active(d) && d.phase == Requeueing
    ensures var (t, n) := WorkFrom(c, s, d, xs, 3);
            t == Count(Requeue(s, d.msg), d.msg.task, RETRY) && n.phase == Finished(Requeued)
  {
    var s3, d3 := Requeue(s, d.msg), Advance(c, s, d, xs[3]);
    WorkOne(c, s, d, xs, 3);
    var s4, d4 := Count(s3, d.msg.task, RETRY), Advance(c, s3, d3, xs[4]);
    WorkOne(c, s3, d3, xs, 4);
    AckTail(c, s4, d4, xs, 5, Requeued);
  }

  /** Celery's own on_failure call, and the ack. */
  lemma FailureEnd(c: Config, s: Store, t: Store, d: Delivery, xs: seq<Choice>, k: nat, pass: Pass)
    requires k + 6 <= |xs| && Active(d) && d.phase == DlqSending(pass) && !pass.OwnCall?
    requires t == Failed(s, d.msg, xs[k].dlqOk, xs[k + 1].dbOk, xs[k + 2].dbOk)
    ensures WorkFrom(c, s, d, xs, k).0 == t && WorkFrom(c, s, d, xs, k).1.phase == Finished(Raised(pass))
  {
    var o := FailureTail(c, s, d, xs, k, pass);
    AckTail(c, t, o, xs, k + 5, Raised(pass));
  }

  lemma ValidationTail(c: Config, s: Store, t: Store, u: Store, d: Delivery, xs: seq<Choice>, k: nat)
    requires k + 11 <= |xs| && Active(d) && d.phase == DlqSending(OwnCall)
    requires t == Failed(s, d.msg, xs[k].dlqOk, xs[k + 1].dbOk, xs[k + 2].dbOk)
    requires u == Failed(t, d.msg, xs[k + 5].dlqOk, xs[k + 6].dbOk, xs[k + 7].dbOk)
    ensures WorkFrom(c, s, d, xs, k).0 == u && WorkFrom(c, s, d, xs, k).1.phase == Finished(Raised(CeleryCall))
  {
    var o := FailureTail(c, s, d, xs, k, OwnCall);
    FailureEnd(c, t, u, o, xs, k + 5, CeleryCall);
  }

  lemma MissIsWork(c: Config, s: Store, d: Delivery, xs: seq<Choice>)
    requires |xs| == 14 && Active(d) && d.phase == Checking && CheckIdempotency(s, d.msg.key) == None
    ensures var (t, n) := WorkFrom(c, s, d, xs, 1); var (u, end) := AfterRun(c, s, d.msg, xs);
            t == u && n.phase == Finished(end)
  {
    var n := MissHead(c, s, d, xs);
    if xs[2].outcome.Success? {
      SuccessTail(c, s, n, xs, 3, xs[2].outcome.value, false);
    } else if n.phase.Requeueing? {
      RetryTail(c, s, n, xs);
    } else if xs[2].outcome.ValidationError? {
      MissInvalid(c, s, n, xs);
    } else {
      FailureEnd(c, s, Failed(s, n.msg, xs[3].dlqOk, xs[4].dbOk, xs[5].dbOk), n, xs, 3, Exhausted);
    }
  }

  /** A ValidationError ends in on_failure twice. */
  lemma MissInvalid(c: Config, s: Store, n: Delivery, xs: seq<Choice>)
    requires |xs| == 14 && Active(n) && CheckIdempotency(s, n.msg.key) == None
    requires xs[2].outcome == ValidationError && n.phase == DlqSending(OwnCall)
    ensures var (t, m) := WorkFrom(c, s, n, xs, 3); var (u, end) := AfterRun(c, s, n.msg, xs);
            t == u && m.phase == Finished(end)
  {
    var t := Failed(s, n.msg, xs[3].dlqOk, xs[4].dbOk, xs[5].dbOk);
    var u := Failed(t, n.msg, xs[8].dlqOk, xs[9].dbOk, xs[10].dbOk);
    assert AfterRun(c, s, n.msg, xs) == (u, Raised(CeleryCall));
    ValidationTail(c, s, t, u, n, xs, 3);
  }

  lemma HitIsWork(c: Config, s: Store, d: Delivery, xs: seq<Choice>)
    requires |xs| == 14 && Active(d) && d.phase == Checking && CheckIdempotency(s, d.msg.key).Some?
    ensures var (t, n) := WorkFrom(c, s, d, xs, 1); var (u, end) := AfterRun(c, s, d.msg, xs);
            t == u && n.phase == Finished(end)
  {
    WorkOne(c, s, d, xs, 1);
    SuccessTail(c, s, Advance(c, s, d, xs[1]), xs, 2, CheckIdempotency(s, d.msg.key).value, true);
  }

  /** The hooks as written have the effect of the protocol's steps, for every outcome and every failure of a write. */
  lemma TraceIsWork(c: Config, s: Store, d: Delivery, xs: seq<Choice>)
    requires |xs| == 14 && Active(d) && d.phase == Starting
    ensures var (t, n) := WorkFrom(c, s, d, xs, 0); var (u, end) := TraceOutcome(c, s, d.msg, xs);
            t == u && n.phase == Finished(end)
  {
    var s1, d1 := Effect(c, s, d.msg, d.phase, xs[0]), Advance(c, s, d, xs[0]);
    WorkOne(c, s, d, xs, 0);
    if CheckIdempotency(s1, d.msg.key).Some? {
      HitIsWork(c, s1, d1, xs);
    } else {
      MissIsWork(c, s1, d1, xs);
    }
  }
}
