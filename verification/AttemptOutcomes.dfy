/**
 What an uninterrupted attempt leaves for all to see, told by what the cache says, what execute()
 does and how many retries there were: messages, reports, counters, cache entry, row.
 */
module AttemptOutcomes {
  import opened JobModel
  import opened Protocol
  import opened BaseTaskModel

  // ---------------------------------------------------------------------------
  // The four ways an attempt can go
  // ---------------------------------------------------------------------------

  /** execute() is not called: its earlier result is served. */
  predicate Served(s: Store, m: Message)
  {
    m.key in s.cache && s.now < s.cache[m.key].expires
  }

  predicate Returns(s: Store, m: Message, x: Outcome)
  {
    Served(s, m) || x.Success?
  }

  /** The value that Celery gets. */
  function Answer(s: Store, m: Message, x: Outcome): Value
    requires Returns(s, m, x)
  {
    if Served(s, m) then s.cache[m.key].value else x.value
  }

  predicate Retries(c: Config, s: Store, m: Message, x: Outcome)
  {
    !Served(s, m) && x.OtherError? && m.retries < c.maxRetries
  }

  /** How often on_failure is called: twice for a ValidationError, once when no retry is left. */
  function Failures(c: Config, s: Store, m: Message, x: Outcome): nat
  {
    if Returns(s, m, x) || Retries(c, s, m, x) then 0 else if x.ValidationError? then 2 else 1
  }

  // ---------------------------------------------------------------------------
  // The stores after each of them
  // ---------------------------------------------------------------------------

  /** A status write touches the rows only, and there only its own job's. */
  lemma WriteFrame(s: Store, j: JobId, status: Status, v: Value, increment: bool, ok: bool)
    ensures var t := UpdateJobStatus(s, j, status, v, increment, ok);
            && t == s.(rows := t.rows) && t.rows.Keys == s.rows.Keys
            && (forall i :: i in s.rows && i != j ==> t.rows[i] == s.rows[i])
            && (!ok ==> t == s)
            && (ok && j in s.rows ==> t.rows[j] == s.rows[j].(
                  status := status, result := if v == Null then s.rows[j].result else v,
                  executionCount := s.rows[j].executionCount + if increment then 1 else 0))
  {
  }

  function Reports(m: Message, ok: bool): seq<DlqMessage>
  {
    if ok then [DlqMessage(m.job, m.task, m.payload)] else []
  }

  /** Rows before and after: only the job's own can differ, and what `ok` says of the writes decides whether. */
  ghost predicate RowsFrame(s: Store, t: Store, j: JobId)
  {
    t.rows.Keys == s.rows.Keys && forall i :: i in s.rows && i != j ==> t.rows[i] == s.rows[i]
  }

  lemma SuccessStore(c: Config, s: Store, m: Message, v: Value, ok: bool)
    ensures var t := Succeeded(c, s, m, v, ok);
            && t == s.(rows := t.rows, jobsTotal := s.jobsTotal + multiset{Sample(m.task, SUCCESS)},
                       cache := s.cache[m.key := Entry(v, s.now + c.resultTtl as real)])
            && RowsFrame(s, t, m.job) && (!ok ==> t.rows == s.rows)
            && (ok && m.job in s.rows ==> t.rows[m.job] == s.rows[m.job].(
                  status := COMPLETED, result := if v == Null then s.rows[m.job].result else v))
  {
    WriteFrame(s, m.job, COMPLETED, v, false, ok);
  }

  lemma FailureStore(s: Store, m: Message, dlqOk: bool, failedOk: bool, dlqWriteOk: bool)
    ensures var t := Failed(s, m, dlqOk, failedOk, dlqWriteOk);
            && t == s.(rows := t.rows, dlq := s.dlq + Reports(m, dlqOk), dlqSize := s.dlqSize + 1,
                       jobsTotal := s.jobsTotal + multiset{Sample(m.task, FAILURE)})
            && RowsFrame(s, t, m.job) && (!failedOk && !dlqWriteOk ==> t.rows == s.rows)
            && (failedOk && dlqWriteOk && m.job in s.rows ==> t.rows[m.job] == s.rows[m.job].(status := DLQ))
  {
    var a := SendToDlq(s, m, dlqOk);
    assert a == s.(dlq := s.dlq + Reports(m, dlqOk));
    WriteFrame(a, m.job, FAILED, Null, false, failedOk);
    WriteFrame(UpdateJobStatus(a, m.job, FAILED, Null, false, failedOk), m.job, DLQ, Null, false, dlqWriteOk);
  }

  /** After before_start, nothing but the row has changed, and so the check finds what it would have found. */
  function Begun(s: Store, m: Message, ok: bool): Store
  {
    UpdateJobStatus(s, m.job, RUNNING, Null, true, ok)
  }

  lemma BegunStore(s: Store, m: Message, ok: bool)
    ensures var b := Begun(s, m, ok);
            && b == s.(rows := b.rows) && RowsFrame(s, b, m.job) && (!ok ==> b.rows == s.rows)
            && (ok && m.job in s.rows ==> b.rows[m.job] == s.rows[m.job].(
                  status := RUNNING, executionCount := s.rows[m.job].executionCount + 1))
            && (CheckIdempotency(b, m.key) == if Served(s, m) then Some(s.cache[m.key].value) else None)
  {
    WriteFrame(s, m.job, RUNNING, Null, true, ok);
  }

  lemma IfReturns(c: Config, s: Store, m: Message, xs: seq<Choice>)
    requires |xs| == 14 && Returns(s, m, xs[2].outcome)
    ensures TraceOutcome(c, s, m, xs)
         == (Succeeded(c, Begun(s, m, xs[0].dbOk), m, Answer(s, m, xs[2].outcome),
                       if Served(s, m) then xs[2].dbOk else xs[3].dbOk),
             Returned(Answer(s, m, xs[2].outcome), Served(s, m)))
  {
    BegunStore(s, m, xs[0].dbOk);
  }

  lemma IfRetries(c: Config, s: Store, m: Message, xs: seq<Choice>)
    requires |xs| == 14 && Retries(c, s, m, xs[2].outcome)
    ensures TraceOutcome(c, s, m, xs) == (Count(Requeue(Begun(s, m, xs[0].dbOk), m), m.task, RETRY), Requeued)
  {
    BegunStore(s, m, xs[0].dbOk);
  }

  lemma IfExhausted(c: Config, s: Store, m: Message, xs: seq<Choice>)
    requires |xs| == 14 && Failures(c, s, m, xs[2].outcome) == 1
    ensures TraceOutcome(c, s, m, xs)
         == (Failed(Begun(s, m, xs[0].dbOk), m, xs[3].dlqOk, xs[4].dbOk, xs[5].dbOk), Raised(Exhausted))
  {
    BegunStore(s, m, xs[0].dbOk);
  }

  lemma IfInvalid(c: Config, s: Store, once: Store, m: Message, xs: seq<Choice>)
    requires |xs| == 14 && Failures(c, s, m, xs[2].outcome) == 2
    requires once == Failed(Begun(s, m, xs[0].dbOk), m, xs[3].dlqOk, xs[4].dbOk, xs[5].dbOk)
    ensures TraceOutcome(c, s, m, xs)
         == (Failed(once, m, xs[8].dlqOk, xs[9].dbOk, xs[10].dbOk), Raised(CeleryCall))
  {
    BegunStore(s, m, xs[0].dbOk);
  }

  /** before_start and one on_failure call. */
  lemma OnceStore(s: Store, t: Store, m: Message, xs: seq<Choice>)
    requires |xs| == 14 && t == Failed(Begun(s, m, xs[0].dbOk), m, xs[3].dlqOk, xs[4].dbOk, xs[5].dbOk)
    ensures t == s.(rows := t.rows, dlq := s.dlq + Reports(m, xs[3].dlqOk), dlqSize := s.dlqSize + 1,
                    jobsTotal := s.jobsTotal + multiset{Sample(m.task, FAILURE)})
    ensures RowsFrame(s, t, m.job) && (NoWrites(xs) ==> t.rows == s.rows)
    ensures AllWrites(xs) && m.job in s.rows ==> t.rows[m.job] == s.rows[m.job].(
              status := DLQ, executionCount := s.rows[m.job].executionCount + 1)
  {
    BegunStore(s, m, xs[0].dbOk);
    FailureStore(Begun(s, m, xs[0].dbOk), m, xs[3].dlqOk, xs[4].dbOk, xs[5].dbOk);
  }

  lemma ExhaustedStore(c: Config, s: Store, t: Store, m: Message, xs: seq<Choice>)
    requires |xs| == 14 && t == TraceOutcome(c, s, m, xs).0 && Failures(c, s, m, xs[2].outcome) == 1
    ensures t == s.(rows := t.rows, dlq := s.dlq + Reports(m, xs[3].dlqOk), dlqSize := s.dlqSize + 1,
                    jobsTotal := s.jobsTotal + multiset{Sample(m.task, FAILURE)})
    ensures RowsFrame(s, t, m.job) && (NoWrites(xs) ==> t.rows == s.rows)
    ensures AllWrites(xs) && m.job in s.rows ==> t.rows[m.job] == s.rows[m.job].(
              status := DLQ, executionCount := s.rows[m.job].executionCount + 1)
  {
    IfExhausted(c, s, m, xs);
    OnceStore(s, t, m, xs);
  }

  /** A second on_failure call after the first. */
  lemma AgainStore(s: Store, once: Store, t: Store, m: Message, xs: seq<Choice>)
    requires |xs| == 14 && t == Failed(once, m, xs[8].dlqOk, xs[9].dbOk, xs[10].dbOk)
    requires once == s.(rows := once.rows, dlq := s.dlq + Reports(m, xs[3].dlqOk), dlqSize := s.dlqSize + 1,
                        jobsTotal := s.jobsTotal + multiset{Sample(m.task, FAILURE)})
    requires RowsFrame(s, once, m.job) && (NoWrites(xs) ==> once.rows == s.rows)
    requires AllWrites(xs) && m.job in s.rows ==> once.rows[m.job] == s.rows[m.job].(
               status := DLQ, executionCount := s.rows[m.job].executionCount + 1)
    ensures t == s.(rows := t.rows, dlq := s.dlq + Reports(m, xs[3].dlqOk) + Reports(m, xs[8].dlqOk),
                    dlqSize := s.dlqSize + 2, jobsTotal := t.jobsTotal)
    ensures t.jobsTotal == s.jobsTotal + multiset{Sample(m.task, FAILURE)} + multiset{Sample(m.task, FAILURE)}
    ensures RowsFrame(s, t, m.job) && (NoWrites(xs) ==> t.rows == s.rows)
    ensures AllWrites(xs) && m.job in s.rows ==> t.rows[m.job] == s.rows[m.job].(
              status := DLQ, executionCount := s.rows[m.job].executionCount + 1)
  {
    FailureStore(once, m, xs[8].dlqOk, xs[9].dbOk, xs[10].dbOk);
  }

  lemma InvalidStore(c: Config, s: Store, t: Store, m: Message, xs: seq<Choice>)
    requires |xs| == 14 && t == TraceOutcome(c, s, m, xs).0 && Failures(c, s, m, xs[2].outcome) == 2
    ensures t == s.(rows := t.rows, dlq := s.dlq + Reports(m, xs[3].dlqOk) + Reports(m, xs[8].dlqOk),
                    dlqSize := s.dlqSize + 2, jobsTotal := t.jobsTotal)
    ensures t.jobsTotal == s.jobsTotal + multiset{Sample(m.task, FAILURE)} + multiset{Sample(m.task, FAILURE)}
    ensures RowsFrame(s, t, m.job) && (NoWrites(xs) ==> t.rows == s.rows)
    ensures AllWrites(xs) && m.job in s.rows ==> t.rows[m.job] == s.rows[m.job].(
              status := DLQ, executionCount := s.rows[m.job].executionCount + 1)
  {
    var once := Failed(Begun(s, m, xs[0].dbOk), m, xs[3].dlqOk, xs[4].dbOk, xs[5].dbOk);
    IfInvalid(c, s, once, m, xs);
    OnceStore(s, once, m, xs);
    AgainStore(s, once, t, m, xs);
  }

  predicate NoWrites(xs: seq<Choice>)
    requires |xs| == 14
  {
    forall i :: 0 <= i < 14 ==> !xs[i].dbOk
  }

  predicate AllWrites(xs: seq<Choice>)
    requires |xs| == 14
  {
    forall i :: 0 <= i < 14 ==> xs[i].dbOk
  }

  /** before_start and on_success. */
  lemma ServedStore(c: Config, s: Store, t: Store, m: Message, v: Value, first: bool, last: bool)
    requires t == Succeeded(c, Begun(s, m, first), m, v, last)
    ensures t == s.(rows := t.rows, jobsTotal := s.jobsTotal + multiset{Sample(m.task, SUCCESS)},
                    cache := s.cache[m.key := Entry(v, s.now + c.resultTtl as real)])
    ensures RowsFrame(s, t, m.job) && (!first && !last ==> t.rows == s.rows)
    ensures first && last && m.job in s.rows ==> t.rows[m.job] == s.rows[m.job].(
              status := COMPLETED, result := if v == Null then s.rows[m.job].result else v,
              executionCount := s.rows[m.job].executionCount + 1)
  {
    BegunStore(s, m, first);
    SuccessStore(c, Begun(s, m, first), m, v, last);
  }

  lemma ReturnsStore(c: Config, s: Store, t: Store, m: Message, xs: seq<Choice>)
    requires |xs| == 14 && t == TraceOutcome(c, s, m, xs).0 && Returns(s, m, xs[2].outcome)
    ensures var v := Answer(s, m, xs[2].outcome);
            && t == s.(rows := t.rows, jobsTotal := s.jobsTotal + multiset{Sample(m.task, SUCCESS)},
                       cache := s.cache[m.key := Entry(v, s.now + c.resultTtl as real)])
            && RowsFrame(s, t, m.job)
            && (NoWrites(xs) ==> t.rows == s.rows)
            && (AllWrites(xs) && m.job in s.rows ==> t.rows[m.job] == s.rows[m.job].(
                  status := COMPLETED, result := if v == Null then s.rows[m.job].result else v,
                  executionCount := s.rows[m.job].executionCount + 1))
  {
    IfReturns(c, s, m, xs);
    ServedStore(c, s, t, m, Answer(s, m, xs[2].outcome), xs[0].dbOk, if Served(s, m) then xs[2].dbOk else xs[3].dbOk);
  }

  lemma RetriesStore(c: Config, s: Store, t: Store, m: Message, xs: seq<Choice>)
    requires |xs| == 14 && t == TraceOutcome(c, s, m, xs).0 && Retries(c, s, m, xs[2].outcome)
    ensures t == s.(rows := t.rows, queue := t.queue, jobsTotal := s.jobsTotal + multiset{Sample(m.task, RETRY)})
    ensures t.queue == s.queue + [Envelope(m.(retries := m.retries + 1, eta := s.now + (10 * Pow2(m.retries)) as real),
                                           FromRetry, false)]
    ensures RowsFrame(s, t, m.job) && (NoWrites(xs) ==> t.rows == s.rows)
    ensures AllWrites(xs) && m.job in s.rows ==> t.rows[m.job] == s.rows[m.job].(
              status := RUNNING, executionCount := s.rows[m.job].executionCount + 1)
  {
    IfRetries(c, s, m, xs);
    BegunStore(s, m, xs[0].dbOk);
  }

  // ---------------------------------------------------------------------------
  // What can be seen
  // ---------------------------------------------------------------------------

  /** Every attempt ends in exactly one way, and the ack tells which. */
  lemma AttemptEnds(c: Config, s: Store, m: Message, xs: seq<Choice>)
    requires |xs| == 14
    ensures var x, end := xs[2].outcome, TraceOutcome(c, s, m, xs).1;
            && (end.Returned? <==> Returns(s, m, x))
            && (end.Returned? ==> end.value == Answer(s, m, x) && (end.hit <==> Served(s, m)))
            && (end.Requeued? <==> Retries(c, s, m, x))
            && (end == Raised(CeleryCall) <==> Failures(c, s, m, x) == 2)
            && (end == Raised(Exhausted) <==> Failures(c, s, m, x) == 1)
  {
    var x := xs[2].outcome;
    if Returns(s, m, x) {
      IfReturns(c, s, m, xs);
    } else if Retries(c, s, m, x) {
      IfRetries(c, s, m, xs);
    } else if Failures(c, s, m, x) == 1 {
      IfExhausted(c, s, m, xs);
    } else {
      IfInvalid(c, s, Failed(Begun(s, m, xs[0].dbOk), m, xs[3].dlqOk, xs[4].dbOk, xs[5].dbOk), m, xs);
    }
  }

  /**
   A retry is the one message that an attempt publishes: the same job again, with one more retry, due
   after 10 * 2^retries seconds. The DLQ gets a report for each on_failure call whose send goes through.
   */
  lemma AttemptSends(c: Config, s: Store, m: Message, xs: seq<Choice>)
    requires |xs| == 14
    ensures var t, x := TraceOutcome(c, s, m, xs).0, xs[2].outcome;
            && t.queue == s.queue + (if Retries(c, s, m, x) then
                 [Envelope(m.(retries := m.retries + 1, eta := s.now + (10 * Pow2(m.retries)) as real), FromRetry, false)]
                 else [])
            && t.dlq == s.dlq + (if Failures(c, s, m, x) >= 1 then Reports(m, xs[3].dlqOk) else [])
                              + (if Failures(c, s, m, x) == 2 then Reports(m, xs[8].dlqOk) else [])
  {
    var t, x := TraceOutcome(c, s, m, xs).0, xs[2].outcome;
    if Returns(s, m, x) {
      ReturnsStore(c, s, t, m, xs);
    } else if Retries(c, s, m, x) {
      RetriesStore(c, s, t, m, xs);
    } else if Failures(c, s, m, x) == 1 {
      ExhaustedStore(c, s, t, m, xs);
    } else {
      InvalidStore(c, s, t, m, xs);
    }
  }

  /** One success, one retry, or a failure and a step of the gauge for each on_failure call. */
  lemma AttemptCounts(c: Config, s: Store, m: Message, xs: seq<Choice>)
    requires |xs| == 14
    ensures var t, x := TraceOutcome(c, s, m, xs).0, xs[2].outcome;
            && t.jobsTotal[Sample(m.task, SUCCESS)]
                 == s.jobsTotal[Sample(m.task, SUCCESS)] + (if Returns(s, m, x) then 1 else 0)
            && t.jobsTotal[Sample(m.task, RETRY)]
                 == s.jobsTotal[Sample(m.task, RETRY)] + (if Retries(c, s, m, x) then 1 else 0)
            && t.jobsTotal[Sample(m.task, FAILURE)] == s.jobsTotal[Sample(m.task, FAILURE)] + Failures(c, s, m, x)
            && t.dlqSize == s.dlqSize + Failures(c, s, m, x)
  {
    var t, x := TraceOutcome(c, s, m, xs).0, xs[2].outcome;
    if Returns(s, m, x) {
      ReturnsStore(c, s, t, m, xs);
    } else if Retries(c, s, m, x) {
      RetriesStore(c, s, t, m, xs);
    } else if Failures(c, s, m, x) == 1 {
      ExhaustedStore(c, s, t, m, xs);
    } else {
      InvalidStore(c, s, t, m, xs);
    }
  }

  /** The cache gets the answer, for one TTL from now, and only from an attempt that returns. */
  lemma AttemptCaches(c: Config, s: Store, m: Message, xs: seq<Choice>)
    requires |xs| == 14
    ensures var t, x := TraceOutcome(c, s, m, xs).0, xs[2].outcome;
            if Returns(s, m, x) then t.cache == s.cache[m.key := Entry(Answer(s, m, x), s.now + c.resultTtl as real)]
            else t.cache == s.cache
  {
    var t, x := TraceOutcome(c, s, m, xs).0, xs[2].outcome;
    if Returns(s, m, x) {
      ReturnsStore(c, s, t, m, xs);
    } else if Retries(c, s, m, x) {
      RetriesStore(c, s, t, m, xs);
    } else if Failures(c, s, m, x) == 1 {
      ExhaustedStore(c, s, t, m, xs);
    } else {
      InvalidStore(c, s, t, m, xs);
    }
  }

  /**
   With working writes the job's row ends COMPLETED with the answer, RUNNING before a retry, or DLQ, and
   is counted once more; with failing writes, or without a row, no row changes; other rows never do.
   */
  lemma AttemptWrites(c: Config, s: Store, m: Message, xs: seq<Choice>)
    requires |xs| == 14
    ensures var t, x := TraceOutcome(c, s, m, xs).0, xs[2].outcome;
            && RowsFrame(s, t, m.job) && (NoWrites(xs) ==> t.rows == s.rows)
            && (AllWrites(xs) && m.job in s.rows ==>
                  var row, now := s.rows[m.job], t.rows[m.job];
                  && now.executionCount == row.executionCount + 1
                  && now.status == (if Returns(s, m, x) then COMPLETED
                                    else if Retries(c, s, m, x) then RUNNING else DLQ)
                  && now.result == (if Returns(s, m, x) && Answer(s, m, x) != Null then Answer(s, m, x) else row.result))
  {
    var t, x := TraceOutcome(c, s, m, xs).0, xs[2].outcome;
    if Returns(s, m, x) {
      ReturnsStore(c, s, t, m, xs);
    } else if Retries(c, s, m, x) {
      RetriesStore(c, s, t, m, xs);
    } else if Failures(c, s, m, x) == 1 {
      ExhaustedStore(c, s, t, m, xs);
    } else {
      InvalidStore(c, s, t, m, xs);
    }
  }
}
