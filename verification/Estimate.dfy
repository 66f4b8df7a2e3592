/**
 get_job's estimated_next_run: it is computed from retry_count, which counts DLQ retries, and so does
 not announce the Celery retry it is documented for.
 */
module Estimate {
  import opened JobModel
  import opened Protocol
  import opened ApiInvariant
  import opened CreateRace
  import opened JobStatusHistory
  import opened Backoff
  import opened Lifecycle
  import opened BaseTaskModel
  import opened JobServiceModel
  import opened Uninterrupted
  import opened Sums

  predicate FirstDue(m: Message, now: real)
  {
    m.retries == 0 ==> m.eta <= now
  }

  ghost predicate AllFirstDue(w: World)
  {
    && (forall q :: 0 <= q < |w.store.queue| ==> FirstDue(w.store.queue[q].msg, w.store.now))
    && (forall i :: 0 <= i < |w.deliveries| ==> FirstDue(w.deliveries[i].msg, w.store.now))
  }

  lemma FirstDueWork(c: Config, w: World, i: nat, x: Choice)
    requires Enabled(w, Work(i, x)) && AllFirstDue(w)
    ensures AllFirstDue(Step(c, w, Work(i, x)))
  {
    var d := w.deliveries[i];
    EffectPublishes(c, w.store, d.msg, d.phase, x);
    EffectFrame(c, w.store, d.msg, d.phase, x);
  }

  lemma FirstDueBroker(c: Config, w: World, e: Event)
    requires Enabled(w, e) && !e.Work? && !e.Api? && AllFirstDue(w)
    ensures AllFirstDue(Step(c, w, e))
  {
    var v := Step(c, w, e);
    StepDeliveries(c, w, e);
    forall i | 0 <= i < |v.deliveries| ensures FirstDue(v.deliveries[i].msg, v.store.now) {
      if i < |w.deliveries| {
        OnlyLife(w, e, i);
      }
    }
  }

  /** First messages are due from the start. */
  lemma {:induction false} FirstMessagesDue(c: Config, es: seq<Event>)
    ensures AllFirstDue(Run(c, es))
  {
    if es != [] {
      var w, e := Run(c, es[..|es| - 1]), es[|es| - 1];
      FirstMessagesDue(c, es[..|es| - 1]);
      if Enabled(w, e) {
        if e.Work? {
          FirstDueWork(c, w, e.delivery, e.x);
        } else if e.Api? {
          CallQueue(c, w.store, w.calls[e.call], e.raises);
        } else {
          FirstDueBroker(c, w, e);
        }
      }
    }
  }

  /** How far ahead get_job's estimate lies for a PENDING row with this retry_count. */
  function Ahead(row: Row, now: real): real
    requires row.status == PENDING && row.retryCount > 0
  {
    EstimatedNextRun(row, now).value - now
  }

  /** The first DLQ retry is put 20 seconds ahead, and each further one twice as far as the one before. */
  lemma EstimateDoubles(row: Row, now: real)
    requires row.status == PENDING && row.retryCount > 0
    ensures row.retryCount == 1 ==> Ahead(row, now) == 20.0
    ensures Ahead(row.(retryCount := row.retryCount + 1), now) == 2.0 * Ahead(row, now)
  {
    var r := row.retryCount;
    assert Pow2(r + 1) == 2 * Pow2(r);
    assert Pow2(1) == 2;
  }

  /** The estimate for retry_count r lies 10 seconds beyond all the backoff that r Celery retries ask for. */
  lemma {:induction false} EstimateExceedsBackoff(row: Row, now: real)
    requires row.status == PENDING && row.retryCount > 0
    ensures EstimatedNextRun(row, now) == Some(now + (RequestedUpTo(row.retryCount) + 10) as real)
    decreases row.retryCount
  {
    var r := row.retryCount;
    if r == 1 {
      EstimateDoubles(row, now);
      ChainBackoff(1);
      assert Pow2(1) == 2;
    } else {
      EstimateExceedsBackoff(row.(retryCount := r - 1), now);
      EstimateDoubles(row.(retryCount := r - 1), now);
      assert row.(retryCount := r - 1).(retryCount := r) == row;
      ChainBackoff(r);
      ChainBackoff(r - 1);
    }
  }

  /**
   In every run, for a job with a Celery retry among its messages: an estimate is given exactly when
   the job is itself a DLQ retry and PENDING. Then an attempt has started, and yet no before_start
   write of the job ever reached its row.
   */
  lemma EstimateGivenIff(c: Config, es: seq<Event>, j: JobId, q: nat)
    requires j in Run(c, es).store.rows && q < |Run(c, es).store.queue|
    requires Run(c, es).store.queue[q].msg.job == j && Run(c, es).store.queue[q].msg.retries > 0
    ensures var w := Run(c, es); var row := w.store.rows[j];
            && FirstStart(w.deliveries, j).Some?
            && (EstimatedNextRun(row, w.store.now).Some? <==> row.status == PENDING && row.parent.Some?)
            && (EstimatedNextRun(row, w.store.now).Some? ==> Sum(CountedOf(j), w.deliveries) == 0)
  {
    var w := Run(c, es);
    RunInv(c, es);
    assert LineageOk(c, w.store.rows, w.store.rows[j]);
    StatusJustified(c, es);
    assert Justified(w, j, w.store.rows[j]);
    NoLostIncrements(c, es, j);
    RunTimed(c, es, j);
    assert MessageTimed(FirstStart(w.deliveries, j), j, w.store.queue[q].msg);
  }

  /**
   Where the job's run was orderly, a job that waits for a Celery retry gets no estimate, and a job
   that gets one has only messages that are due already.
   */
  lemma EstimateMisses(c: Config, es: seq<Event>, j: JobId, q: nat)
    requires OrderlyRun(c, es, j) && j in Run(c, es).store.rows && q < |Run(c, es).store.queue|
    requires Run(c, es).store.queue[q].msg.job == j && !Run(c, es).store.queue[q].taken
    ensures var s := Run(c, es).store; var m := s.queue[q].msg;
            && (m.retries > 0 ==> EstimatedNextRun(s.rows[j], s.now) == None)
            && (EstimatedNextRun(s.rows[j], s.now).Some? ==> m.eta <= s.now < EstimatedNextRun(s.rows[j], s.now).value)
  {
    RunFits(c, es, j);
    FirstMessagesDue(c, es);
    assert FirstDue(Run(c, es).store.queue[q].msg, Run(c, es).store.now);
    assert WaitFits(Run(c, es).store, j, Run(c, es).store.queue[q]);
  }

  // ---------------------------------------------------------------------------
  // Both halves occur
  // ---------------------------------------------------------------------------

  /** A Celery retry of job `j` waits at `q`. */
  predicate RetryWaits(s: Store, q: nat, j: JobId)
  {
    q < |s.queue| && !s.queue[q].taken && s.queue[q].msg.job == j && s.queue[q].msg.retries > 0
  }

  /** An attempt that misses the cache and asks for a retry. */
  lemma AsksRetry(c: Config, s: Store, m: Message, ok: bool)
    requires m.key !in s.cache && m.retries < c.maxRetries
    ensures var t := UpdateJobStatus(s, m.job, RUNNING, Null, true, ok);
            TraceOutcome(c, s, m, Throughout(Choice(ok, true, OtherError)))
              == (Count(Requeue(t, m), m.task, RETRY), Requeued)
  {
  }

  /** A waiting retry without an estimate: a new job's first attempt has failed. */
  lemma NoEstimateForRetry(c: Config, task: TaskName) returns (es: seq<Event>)
    requires task in c.allowed && c.maxRetries > 0
    ensures var s := Run(c, es).store;
            RetryWaits(s, 1, 0) && 0 in s.rows && EstimatedNextRun(s.rows[0], s.now) == None
  {
    var before := FirstCreated(c, task, 0, Client(0));
    var xs := Throughout(Choice(true, true, OtherError));
    var w := Run(c, before);
    es := before + [Deliver(0)] + Works(0, xs, 0);
    AttemptIsRun(c, before, 0, xs);
    AsksRetry(c, Take(w.store, 0), w.store.queue[0].msg, true);
  }

  /** One on_failure call leaves the row in DLQ and touches no other store that matters here. */
  lemma FailedRow(s: Store, m: Message)
    requires m.job in s.rows
    ensures var t := Failed(s, m, true, true, true);
            && t.rows == s.rows[m.job := s.rows[m.job].(status := DLQ)]
            && t.queue == s.queue && t.index == s.index && t.uuids == s.uuids && t.revoked == s.revoked
            && t.cache == s.cache && t.now == s.now
  {
  }

  /** An attempt that ends in a ValidationError. */
  lemma AsksDlq(c: Config, s: Store, m: Message)
    requires m.key !in s.cache && m.job in s.rows
    ensures var (t, end) := TraceOutcome(c, s, m, Throughout(Choice(true, true, ValidationError)));
            && end == Raised(CeleryCall) && m.job in t.rows && t.rows[m.job] == s.rows[m.job].(
                 status := DLQ, executionCount := s.rows[m.job].executionCount + 1)
            && t.queue == s.queue && t.index == s.index && t.uuids == s.uuids && t.revoked == s.revoked
            && t.cache == s.cache && t.now == s.now
  {
    var begun := UpdateJobStatus(s, m.job, RUNNING, Null, true, true);
    FailedRow(begun, m);
    FailedRow(Failed(begun, m, true, true, true), m);
  }

  /** Job 0 is in the DLQ. */
  lemma FirstInDlq(c: Config, task: TaskName) returns (es: seq<Event>)
    requires task in c.allowed
    ensures var w := Run(c, es);
            && 0 in w.store.rows && w.store.rows[0].status == DLQ && w.store.rows[0].retryCount == 0
            && |w.store.queue| == 1 && w.store.index == map[Client(0) := 0] && w.store.uuids == 2
            && w.store.revoked == {} && w.store.cache == map[] && |w.calls| == 1 && |w.deliveries| == 1
  {
    var before := FirstCreated(c, task, 0, Client(0));
    var xs := Throughout(Choice(true, true, ValidationError));
    var w := Run(c, before);
    es := before + [Deliver(0)] + Works(0, xs, 0);
    AttemptIsRun(c, before, 0, xs);
    AsksDlq(c, Take(w.store, 0), w.store.queue[0].msg);
  }

  /** The row a DLQ retry of `original` inserts. */
  function RetryRow(s: Store, job: JobId, original: Row): Row
  {
    NewRow(original.task, original.payload, DlqRetry(s.uuids), original.retryCount + 1, Some(job))
  }

  /** A DLQ retry's read and flush. */
  lemma RetryFlushes(c: Config, s: Store, job: JobId)
    requires job in s.rows && s.rows[job].status == DLQ && DlqRetry(s.uuids) !in s.index
    ensures var row, call := RetryRow(s, job, s.rows[job]), Call(RetryDlq(job), Opened);
            CallFrom(c, s, call, 0, CALL_STEPS)
              == CallFrom(c, Flush(s, s.uuids + 1, row, 2, Original(s.rows[job])).0,
                          call.(phase := Flushed(s.uuids + 1, row)), 2, CALL_STEPS)
  {
    var call := Call(RetryDlq(job), Opened);
    CallOne(c, s, call, 0, CALL_STEPS);
    CallOne(c, s, call.(phase := Original(s.rows[job])), 1, CALL_STEPS);
  }

  /** A DLQ retry that runs to its reply: the new row is committed and its message waits. */
  lemma RetryAlone(c: Config, s: Store, job: JobId)
    requires job in s.rows && s.rows[job].status == DLQ && DlqRetry(s.uuids) !in s.index
    ensures var row, id := RetryRow(s, job, s.rows[job]), s.uuids + 1;
            var t := CallFrom(c, s, Call(RetryDlq(job), Opened), 0, CALL_STEPS).0;
            && t.rows == s.rows[id := row.(celeryId := Some(s.uuids + 2))]
            && t.queue == s.queue
                 + [Envelope(Message(s.uuids + 2, id, row.key, row.task, row.payload, 0, s.now), FromApi, false)]
            && t.revoked == s.revoked && t.cache == s.cache && t.now == s.now
  {
    var row := RetryRow(s, job, s.rows[job]);
    RetryFlushes(c, s, job);
    InsertedPath(c, Flush(s, s.uuids + 1, row, 2, Original(s.rows[job])).0,
                 Call(RetryDlq(job), Flushed(s.uuids + 1, row)), s.uuids + 1, row, CALL_STEPS);
  }

  /** Job 3, a DLQ retry of job 0, is committed and its message waits. */
  lemma SecondCreated(c: Config, task: TaskName) returns (es: seq<Event>)
    requires task in c.allowed
    ensures var w := Run(c, es);
            && 3 in w.store.rows && w.store.rows[3].status == PENDING && w.store.rows[3].retryCount == 1
            && |w.store.queue| == 2 && w.store.revoked == {} && w.store.cache == map[] && |w.deliveries| == 1
            && w.store.queue[1].msg.job == 3 && w.store.queue[1].msg.retries == 0 && !w.store.queue[1].taken
            && w.store.queue[1].msg.eta == w.store.now
  {
    var before := FirstInDlq(c, task);
    es := before + [Open(RetryDlq(0))] + Steps(1, 0, CALL_STEPS);
    RequestIsRun(c, before, RetryDlq(0), CALL_STEPS);
    RetryAlone(c, Run(c, before).store, 0);
  }

  /**
   A waiting retry with an estimate: a DLQ retry whose before_start write failed. The retry is due
   in 10 seconds; the estimate says 20.
   */
  lemma EstimateForRetry(c: Config, task: TaskName) returns (es: seq<Event>)
    requires task in c.allowed && c.maxRetries > 0
    ensures var s := Run(c, es).store;
            && RetryWaits(s, 2, 3) && 3 in s.rows && s.queue[2].msg.eta == s.now + 10.0
            && EstimatedNextRun(s.rows[3], s.now) == Some(s.now + 20.0)
  {
    var before := SecondCreated(c, task);
    var xs := Throughout(Choice(false, true, OtherError));
    var w := Run(c, before);
    es := before + [Deliver(1)] + Works(1, xs, 0);
    AttemptIsRun(c, before, 1, xs);
    AsksRetry(c, Take(w.store, 1), w.store.queue[1].msg, false);
    assert Pow2(1) == 2;
  }
}
