/**
 The books: what the counters say about what the workers did, in every state of every run,
 with hooks cut off by crashes at any line.
 */
module Accounting {
  import opened JobModel
  import opened Protocol
  import opened ApiInvariant
  import opened JobStatusHistory
  import opened Sums

  /** How often a delivery at this phase has incremented the counter with this tag. */
  function Marks(tag: Label, p: Phase): nat
  {
    match tag
    case SUCCESS => if p.Storing? || (Ended(p) && p.end.Returned?) then 1 else 0
    case RETRY => if Ended(p) && p.end.Requeued? then 1 else 0
    case FAILURE => if p.Gauging? then Rounds(p.pass) else EarlierRounds(p)
    case DLQ_RETRY => 0
  }

  predicate Ended(p: Phase)
  {
    p.Acking? || p.Finished?
  }

  /** on_failure calls completed at the end of this pass. */
  function Rounds(pass: Pass): nat
  {
    if pass.CeleryCall? then 2 else 1
  }

  /** on_failure calls completed before the current one, or in all once the delivery has ended. */
  function EarlierRounds(p: Phase): nat
  {
    match p
    case DlqSending(pass) => Rounds(pass) - 1
    case WritingFailed(pass) => Rounds(pass) - 1
    case WritingDlq(pass) => Rounds(pass) - 1
    case CountingFailed(pass) => Rounds(pass) - 1
    case Gauging(pass) => Rounds(pass) - 1
    case Acking(Raised(pass)) => Rounds(pass)
    case Finished(Raised(pass)) => Rounds(pass)
    case _ => 0
  }

  function MarksOf(task: TaskName, tag: Label): Delivery -> int
  {
    (d: Delivery) => if d.msg.task == task then Marks(tag, d.phase) else 0
  }

  function GaugeOf(): Delivery -> int
  {
    (d: Delivery) => EarlierRounds(d.phase)
  }

  ghost predicate CountersOk(w: World, task: TaskName, tag: Label)
  {
    w.store.jobsTotal[Sample(task, tag)] == Sum(MarksOf(task, tag), w.deliveries)
  }

  ghost predicate GaugeOk(w: World)
  {
    w.store.dlqSize == Sum(GaugeOf(), w.deliveries)
  }

  /** The counter that an effect increments. */
  function CountedAt(p: Phase): Option<Label>
  {
    match p
    case Counting(_, _) => Some(SUCCESS)
    case CountingRetry => Some(RETRY)
    case CountingFailed(_) => Some(FAILURE)
    case _ => None
  }

  lemma EffectMetrics(c: Config, s: Store, msg: Message, p: Phase, x: Choice)
    ensures var t := Effect(c, s, msg, p, x);
            && t.jobsTotal == (if CountedAt(p).Some? then s.jobsTotal + multiset{Sample(msg.task, CountedAt(p).value)}
                               else s.jobsTotal)
            && t.dlqSize == s.dlqSize + if p.Gauging? then 1 else 0
  {
  }

  lemma MarksAdvance(c: Config, s: Store, msg: Message, p: Phase, outcome: Outcome, tag: Label)
    requires !p.Finished? && !p.Discarded?
    ensures var n := NextPhase(c, s, msg, p, outcome);
            && Marks(tag, n) == Marks(tag, p) + (if CountedAt(p) == Some(tag) then 1 else 0)
  {
  }

  lemma GaugeAdvance(c: Config, s: Store, msg: Message, p: Phase, outcome: Outcome)
    requires !p.Finished? && !p.Discarded?
    ensures EarlierRounds(NextPhase(c, s, msg, p, outcome)) == EarlierRounds(p) + if p.Gauging? then 1 else 0
  {
  }

  lemma CallCounts(c: Config, s: Store, call: Call, raises: bool, task: TaskName, tag: Label)
    requires tag != DLQ_RETRY
    ensures var t := CallStep(c, s, call, raises).0;
            t.jobsTotal[Sample(task, tag)] == s.jobsTotal[Sample(task, tag)] && t.dlqSize == s.dlqSize
  {
  }

  lemma CountersWork(c: Config, w: World, i: nat, x: Choice, task: TaskName, tag: Label)
    requires Enabled(w, Work(i, x)) && CountersOk(w, task, tag)
    ensures CountersOk(Step(c, w, Work(i, x)), task, tag)
  {
    var d := w.deliveries[i];
    EffectMetrics(c, w.store, d.msg, d.phase, x);
    MarksAdvance(c, w.store, d.msg, d.phase, x.outcome, tag);
    SumUpdate(MarksOf(task, tag), w.deliveries, i, Advance(c, w.store, d, x));
  }

  lemma GaugeWork(c: Config, w: World, i: nat, x: Choice)
    requires Enabled(w, Work(i, x)) && GaugeOk(w)
    ensures GaugeOk(Step(c, w, Work(i, x)))
  {
    var d := w.deliveries[i];
    EffectMetrics(c, w.store, d.msg, d.phase, x);
    GaugeAdvance(c, w.store, d.msg, d.phase, x.outcome);
    SumUpdate(GaugeOf(), w.deliveries, i, Advance(c, w.store, d, x));
  }

  /** A new delivery has marked nothing, and a change of life no more. */
  lemma MarksOther(w: World, e: Event, task: TaskName, tag: Label)
    requires Enabled(w, e) && !e.Work?
    ensures Sum(MarksOf(task, tag), DeliveriesAfter(w, e)) == Sum(MarksOf(task, tag), w.deliveries)
    ensures Sum(GaugeOf(), DeliveriesAfter(w, e)) == Sum(GaugeOf(), w.deliveries)
  {
    forall i | 0 <= i < |w.deliveries|
      ensures MarksOf(task, tag)(DeliveriesAfter(w, e)[i]) == MarksOf(task, tag)(w.deliveries[i])
      ensures GaugeOf()(DeliveriesAfter(w, e)[i]) == GaugeOf()(w.deliveries[i])
    {
      OnlyLife(w, e, i);
    }
    SumOther(MarksOf(task, tag), w, e);
    SumOther(GaugeOf(), w, e);
  }

  lemma CountersStep(c: Config, w: World, e: Event, task: TaskName, tag: Label)
    requires tag != DLQ_RETRY && CountersOk(w, task, tag) && GaugeOk(w)
    ensures CountersOk(Step(c, w, e), task, tag) && GaugeOk(Step(c, w, e))
  {
    if Enabled(w, e) && e.Work? {
      CountersWork(c, w, e.delivery, e.x, task, tag);
      GaugeWork(c, w, e.delivery, e.x);
    } else if Enabled(w, e) {
      if e.Api? {
        CallCounts(c, w.store, w.calls[e.call], e.raises, task, tag);
      }
      StepDeliveries(c, w, e);
      MarksOther(w, e, task, tag);
    }
  }

  /** In every reachable state each counter equals the hooks that got as far as incrementing it. */
  lemma {:induction false} CountersExact(c: Config, es: seq<Event>, task: TaskName, tag: Label)
    requires tag != DLQ_RETRY
    ensures CountersOk(Run(c, es), task, tag) && GaugeOk(Run(c, es))
  {
    if es != [] {
      CountersExact(c, es[..|es| - 1], task, tag);
      CountersStep(c, Run(c, es[..|es| - 1]), es[|es| - 1], task, tag);
    }
  }

  // ---------------------------------------------------------------------------
  // Conservation of attempts
  // ---------------------------------------------------------------------------

  datatype Fate = InFlight | Died | Executed | CacheHit | Retried | Terminal | Skipped

  function FateOf(d: Delivery): Fate
  {
    if d.phase.Discarded? then Skipped
    else if d.phase.Finished? then
      (match d.phase.end
       case Returned(_, hit) => if hit then CacheHit else Executed
       case Requeued => Retried
       case Raised(_) => Terminal)
    else if d.life.Alive? then InFlight
    else Died
  }

  function Of(task: TaskName, f: Fate): Delivery -> int
  {
    (d: Delivery) => if d.msg.task == task && FateOf(d) == f then 1 else 0
  }

  function AttemptsAt(task: TaskName): Delivery -> int
  {
    (d: Delivery) => if Attempt(d) && d.msg.task == task then 1 else 0
  }

  /** Attempts that ended in a ValidationError, which on_failure counts twice. */
  function FinishedValidations(task: TaskName): Delivery -> int
  {
    (d: Delivery) => if d.msg.task == task && d.phase == Finished(Raised(CeleryCall)) then 1 else 0
  }

  /** Increments by attempts that have not finished: in flight, or cut off by a crash. */
  function Unsettled(task: TaskName, tag: Label): Delivery -> int
  {
    (d: Delivery) => if d.msg.task == task && !d.phase.Finished? then Marks(tag, d.phase) else 0
  }

  function Settled(task: TaskName, tag: Label): Delivery -> int
  {
    (d: Delivery) => if d.msg.task == task && d.phase.Finished? then Marks(tag, d.phase) else 0
  }

  function Total(w: World, f: Delivery -> int): int
  {
    Sum(f, w.deliveries)
  }

  /** Sums of six summands, pointwise. */
  lemma {:induction false} SumOfFates(task: TaskName, ds: seq<Delivery>)
    ensures Sum(AttemptsAt(task), ds)
         == Sum(Of(task, Executed), ds) + Sum(Of(task, CacheHit), ds) + Sum(Of(task, Retried), ds)
          + Sum(Of(task, Terminal), ds) + Sum(Of(task, Died), ds) + Sum(Of(task, InFlight), ds)
  {
    if ds != [] {
      SumOfFates(task, ds[..|ds| - 1]);
    }
  }

  predicate NoOwnEnd(d: Delivery)
  {
    Ended(d.phase) && d.phase.end.Raised? ==> !d.phase.end.pass.OwnCall?
  }

  lemma {:induction false} NoOwnEnds(c: Config, es: seq<Event>)
    ensures forall i :: 0 <= i < |Run(c, es).deliveries| ==> NoOwnEnd(Run(c, es).deliveries[i])
  {
    if es != [] {
      NoOwnEnds(c, es[..|es| - 1]);
      var w, e := Run(c, es[..|es| - 1]), es[|es| - 1];
      forall i | 0 <= i < |Step(c, w, e).deliveries| ensures NoOwnEnd(Step(c, w, e).deliveries[i]) {
        if i < |w.deliveries| {
          assert NoOwnEnd(w.deliveries[i]);
        }
      }
    }
  }

  lemma SettledOne(task: TaskName, d: Delivery)
    requires NoOwnEnd(d)
    ensures Settled(task, SUCCESS)(d) == Of(task, Executed)(d) + Of(task, CacheHit)(d)
    ensures Settled(task, RETRY)(d) == Of(task, Retried)(d)
    ensures Settled(task, FAILURE)(d) == Of(task, Terminal)(d) + FinishedValidations(task)(d)
  {
  }

  lemma {:induction false} SettledSums(task: TaskName, ds: seq<Delivery>)
    requires forall i :: 0 <= i < |ds| ==> NoOwnEnd(ds[i])
    ensures Sum(Settled(task, SUCCESS), ds) == Sum(Of(task, Executed), ds) + Sum(Of(task, CacheHit), ds)
    ensures Sum(Settled(task, RETRY), ds) == Sum(Of(task, Retried), ds)
    ensures Sum(Settled(task, FAILURE), ds)
         == Sum(Of(task, Terminal), ds) + Sum(FinishedValidations(task), ds)
  {
    if ds != [] {
      SettledSums(task, ds[..|ds| - 1]);
      SettledOne(task, ds[|ds| - 1]);
    }
  }

  /**
   Attempts split exactly into executed, cached, retried, terminal, crashed and in flight; the
   counters equal the finished ones, each ValidationError twice, plus what unfinished hooks
   had already counted.
   */
  lemma AttemptsConserved(c: Config, es: seq<Event>, task: TaskName)
    ensures var w := Run(c, es);
            Total(w, AttemptsAt(task))
              == Total(w, Of(task, Executed)) + Total(w, Of(task, CacheHit)) + Total(w, Of(task, Retried))
               + Total(w, Of(task, Terminal)) + Total(w, Of(task, Died)) + Total(w, Of(task, InFlight))
    ensures var w := Run(c, es);
            && w.store.jobsTotal[Sample(task, SUCCESS)]
                 == Total(w, Of(task, Executed)) + Total(w, Of(task, CacheHit)) + Total(w, Unsettled(task, SUCCESS))
            && w.store.jobsTotal[Sample(task, RETRY)]
                 == Total(w, Of(task, Retried)) + Total(w, Unsettled(task, RETRY))
            && w.store.jobsTotal[Sample(task, FAILURE)]
                 == Total(w, Of(task, Terminal)) + Total(w, FinishedValidations(task))
                    + Total(w, Unsettled(task, FAILURE))
  {
    var w := Run(c, es);
    SumOfFates(task, w.deliveries);
    NoOwnEnds(c, es);
    SettledSums(task, w.deliveries);
    CountersExact(c, es, task, SUCCESS);
    CountersExact(c, es, task, RETRY);
    CountersExact(c, es, task, FAILURE);
    SumAdd(Settled(task, SUCCESS), Unsettled(task, SUCCESS), MarksOf(task, SUCCESS), w.deliveries);
    SumAdd(Settled(task, RETRY), Unsettled(task, RETRY), MarksOf(task, RETRY), w.deliveries);
    SumAdd(Settled(task, FAILURE), Unsettled(task, FAILURE), MarksOf(task, FAILURE), w.deliveries);
  }

  /** Nothing is in flight or crashed, and no unfinished hook has counted, once every delivery has ended. */
  lemma NothingOpen(w: World, task: TaskName)
    requires forall i :: 0 <= i < |w.deliveries| ==> !Unacked(w.deliveries[i])
    ensures Total(w, Of(task, Died)) == 0 && Total(w, Of(task, InFlight)) == 0
  {
    SumZero(Of(task, Died), w.deliveries);
    SumZero(Of(task, InFlight), w.deliveries);
  }

  lemma NothingUnsettled(w: World, task: TaskName, tag: Label)
    requires forall i :: 0 <= i < |w.deliveries| ==> !Unacked(w.deliveries[i])
    ensures Total(w, Unsettled(task, tag)) == 0
  {
    SumZero(Unsettled(task, tag), w.deliveries);
  }

  /** Once every delivery is finished, the three counters tell the number of attempts. */
  lemma CountersTellAttempts(c: Config, es: seq<Event>, task: TaskName)
    requires forall i :: 0 <= i < |Run(c, es).deliveries| ==> !Unacked(Run(c, es).deliveries[i])
    ensures var w := Run(c, es); var m := w.store.jobsTotal;
            Total(w, AttemptsAt(task))
              == m[Sample(task, SUCCESS)] + m[Sample(task, RETRY)] + m[Sample(task, FAILURE)]
               - Total(w, FinishedValidations(task))
  {
    AttemptsConserved(c, es, task);
    NothingOpen(Run(c, es), task);
    NothingUnsettled(Run(c, es), task, SUCCESS);
    NothingUnsettled(Run(c, es), task, RETRY);
    NothingUnsettled(Run(c, es), task, FAILURE);
  }

  // ---------------------------------------------------------------------------
  // The dlq_retry counter
  // ---------------------------------------------------------------------------

  /** A DLQ retry call whose metric is out: counted, whether its client was answered or not. */
  predicate RetryCounted(call: Call)
  {
    && call.request.RetryDlq?
    && match call.phase
       case Committed(_, _, counted) => counted
       case Errored(_, _, counted) => counted
       case Replied(Created(_, _)) => true
       case _ => false
  }

  /** Counted calls whose new row runs this task. */
  function RetriesAt(rows: map<JobId, Row>, task: TaskName): Call -> int
  {
    (x: Call) =>
      if RetryCounted(x) && Minted(x.phase).Some? && Minted(x.phase).value in rows
         && rows[Minted(x.phase).value].task == task then 1 else 0
  }

  ghost predicate RetriesOk(w: World, task: TaskName)
  {
    w.store.jobsTotal[Sample(task, DLQ_RETRY)] == Sum(RetriesAt(w.store.rows, task), w.calls)
  }

  /** Rows keep their task, so what was counted stays so. */
  lemma {:induction false} SameRetries(c: Config, s: Store, t: Store, calls: seq<Call>, task: TaskName)
    requires forall i :: 0 <= i < |calls| ==> CallOk(c, s, calls[i])
    requires forall j :: j in s.rows ==> j in t.rows && SameFixed(s.rows[j], t.rows[j])
    ensures Sum(RetriesAt(s.rows, task), calls) == Sum(RetriesAt(t.rows, task), calls)
  {
    if calls != [] {
      SameRetries(c, s, t, calls[..|calls| - 1], task);
      assert CallOk(c, s, calls[|calls| - 1]);
    }
  }

  /** The step that increments. */
  predicate Counts(call: Call, raises: bool)
  {
    call.request.RetryDlq? && call.phase.Committed? && !call.phase.counted && !raises
  }

  lemma OtherCallSteps(c: Config, s: Store, call: Call, raises: bool)
    requires !Counts(call, raises)
    ensures var (t, p) := CallStep(c, s, call, raises);
            && t.jobsTotal == s.jobsTotal
            && (RetryCounted(call.(phase := p)) <==> RetryCounted(call))
            && (RetryCounted(call) ==> Minted(p) == Minted(call.phase))
  {
  }

  lemma CountingStep(c: Config, s: Store, call: Call)
    requires Counts(call, false)
    ensures CallStep(c, s, call, false)
         == (Count(s, call.phase.row.task, DLQ_RETRY), Committed(call.phase.id, call.phase.row, true))
  {
  }

  /** A call's own step counts exactly when it increments. */
  lemma CallRetries(c: Config, s: Store, t: Store, p: CallPhase, call: Call, raises: bool, task: TaskName)
    requires CallOk(c, s, call) && (t, p) == CallStep(c, s, call, raises)
    requires forall j :: j in s.rows ==> j in t.rows && SameFixed(s.rows[j], t.rows[j])
    ensures t.jobsTotal[Sample(task, DLQ_RETRY)] - s.jobsTotal[Sample(task, DLQ_RETRY)]
         == RetriesAt(t.rows, task)(call.(phase := p)) - RetriesAt(s.rows, task)(call)
  {
    if Counts(call, raises) {
      CountingStep(c, s, call);
    } else {
      OtherCallSteps(c, s, call, raises);
      if RetryCounted(call) && call.phase.Replied? {
        assert Minted(call.phase).value in s.rows;
      }
    }
  }

  lemma RetriesApi(c: Config, w: World, i: nat, raises: bool, task: TaskName)
    requires CallsOk(c, w) && i < |w.calls| && RetriesOk(w, task)
    requires forall j :: j in w.store.rows ==>
               var t := CallStep(c, w.store, w.calls[i], raises).0; j in t.rows && SameFixed(w.store.rows[j], t.rows[j])
    ensures RetriesOk(Step(c, w, Api(i, raises)), task)
  {
    var (t, p) := CallStep(c, w.store, w.calls[i], raises);
    assert CallOk(c, w.store, w.calls[i]);
    CallRetries(c, w.store, t, p, w.calls[i], raises, task);
    SameRetries(c, w.store, t, w.calls, task);
    SumUpdate(RetriesAt(t.rows, task), w.calls, i, w.calls[i].(phase := p));
  }

  lemma RetriesWork(c: Config, w: World, i: nat, x: Choice, task: TaskName)
    requires CallsOk(c, w) && Enabled(w, Work(i, x)) && RetriesOk(w, task)
    ensures RetriesOk(Step(c, w, Work(i, x)), task)
  {
    var d := w.deliveries[i];
    EffectMetrics(c, w.store, d.msg, d.phase, x);
    EffectFrame(c, w.store, d.msg, d.phase, x);
    SameRetries(c, w.store, Effect(c, w.store, d.msg, d.phase, x), w.calls, task);
  }

  lemma RetriesStep(c: Config, w: World, e: Event, task: TaskName)
    requires Inv(c, w) && RetriesOk(w, task)
    ensures RetriesOk(Step(c, w, e), task)
  {
    if Enabled(w, e) {
      match e
      case Api(i, raises) =>
        forall j | j in w.store.rows
          ensures var t := CallStep(c, w.store, w.calls[i], raises).0;
                  j in t.rows && SameFixed(w.store.rows[j], t.rows[j])
        {
          RowStaysCommitted(c, w, e, j);
        }
        RetriesApi(c, w, i, raises, task);
      case Open(r) => SumAppend(RetriesAt(w.store.rows, task), w.calls, Call(r, Opened));
      case Work(i, x) => RetriesWork(c, w, i, x, task);
      case _ =>
    }
  }

  /** The dlq_retry counter equals the retry calls that got as far as counting, answered or not. */
  lemma {:induction false} RetriesExact(c: Config, es: seq<Event>, task: TaskName)
    ensures RetriesOk(Run(c, es), task)
  {
    if es != [] {
      RetriesExact(c, es[..|es| - 1], task);
      RunInv(c, es[..|es| - 1]);
      RetriesStep(c, Run(c, es[..|es| - 1]), es[|es| - 1], task);
    }
  }
}
