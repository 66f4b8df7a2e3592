/**
 How often a job can be attempted under arbitrary crashes and redeliveries: a potential summed over
 waiting messages and deliveries at work pays for every attempt still to come.
 */
module Attempts {
  import opened JobModel
  import opened Protocol
  import opened ApiInvariant
  import opened CreateRace
  import opened Sums

  // ---------------------------------------------------------------------------
  // Counters
  // ---------------------------------------------------------------------------

  function AttemptOf(j: JobId): Delivery -> int
  {
    (d: Delivery) => if Attempt(d) && d.msg.job == j then 1 else 0
  }

  function ApiSendOf(j: JobId): Envelope -> int
  {
    (e: Envelope) => if e.origin.FromApi? && e.msg.job == j then 1 else 0
  }

  function RedeliveryOf(j: JobId): Envelope -> int
  {
    (e: Envelope) => if e.origin.FromRedelivery? && e.msg.job == j then 1 else 0
  }

  function Attempted(w: World, j: JobId): int
  {
    Sum(AttemptOf(j), w.deliveries)
  }

  function ApiSends(w: World, j: JobId): int
  {
    Sum(ApiSendOf(j), w.store.queue)
  }

  function Redeliveries(w: World, j: JobId): int
  {
    Sum(RedeliveryOf(j), w.store.queue)
  }

  // ---------------------------------------------------------------------------
  // One API send per job
  // ---------------------------------------------------------------------------

  ghost predicate OneSend(w: World, j: JobId)
  {
    ApiSends(w, j) == if j in w.store.sent then 1 else 0
  }

  /** A call step records in `sent` exactly what it publishes. */
  lemma CallSent(c: Config, s: Store, call: Call, raises: bool, j: JobId)
    requires CallOk(c, s, call)
    ensures var t := CallStep(c, s, call, raises).0;
            if call.phase.Flushed? && !raises && call.phase.id == j then j in t.sent && j !in s.sent
            else (j in t.sent <==> j in s.sent)
  {
  }

  lemma OneSendStep(c: Config, w: World, e: Event, j: JobId)
    requires CallsOk(c, w) && OneSend(w, j)
    ensures OneSend(Step(c, w, e), j)
  {
    if Enabled(w, e) {
      var s := w.store;
      match e
      case Api(i, raises) =>
        CallPublishes(c, s, w.calls[i], raises);
        CallSent(c, s, w.calls[i], raises, j);
        var t := Step(c, w, e).store;
        if w.calls[i].phase.Flushed? && !raises {
          SumAppend(ApiSendOf(j), s.queue, t.queue[|s.queue|]);
        }
      case Deliver(q) => SumUpdate(ApiSendOf(j), s.queue, q, s.queue[q].(taken := true));
      case Work(i, x) =>
        var d := w.deliveries[i];
        EffectPublishes(c, s, d.msg, d.phase, x);
        EffectFrame(c, s, d.msg, d.phase, x);
        SumAppend(ApiSendOf(j), s.queue, Envelope(NextRetry(d.msg, s.now), FromRetry, false));
      case Redeliver(i) => SumAppend(ApiSendOf(j), s.queue, Envelope(w.deliveries[i].msg, FromRedelivery, false));
      case _ =>
    }
  }

  /** The API publishes at most one message per job, in any run. */
  lemma {:induction false} OneSendPerJob(c: Config, es: seq<Event>, j: JobId)
    ensures OneSend(Run(c, es), j)
  {
    if es != [] {
      OneSendPerJob(c, es[..|es| - 1], j);
      RunInv(c, es[..|es| - 1]);
      OneSendStep(c, Run(c, es[..|es| - 1]), es[|es| - 1], j);
    }
  }

  // ---------------------------------------------------------------------------
  // The attempt bound
  // ---------------------------------------------------------------------------

  /** A delivery that can still publish a retry. */
  predicate MayRequeue(d: Delivery)
  {
    d.life.Alive? && (d.phase.Starting? || d.phase.Checking? || d.phase.Executing? || d.phase.Requeueing?)
  }

  /** Attempts that a waiting message can still give rise to. */
  function WaitingPotential(c: Config, j: JobId): Envelope -> int
  {
    (e: Envelope) => if !e.taken && e.msg.job == j then c.maxRetries + 1 - e.msg.retries else 0
  }

  /** Further attempts that a delivery can still give rise to. */
  function FlightPotential(c: Config, j: JobId): Delivery -> int
  {
    (d: Delivery) => if MayRequeue(d) && d.msg.job == j then c.maxRetries - d.msg.retries else 0
  }

  function Potential(c: Config, w: World, j: JobId): int
  {
    Sum(WaitingPotential(c, j), w.store.queue) + Sum(FlightPotential(c, j), w.deliveries)
  }

  /** A full chain of attempts for each envelope that no retry put in. */
  function BudgetOf(c: Config, j: JobId): Envelope -> int
  {
    (e: Envelope) => if !e.origin.FromRetry? && e.msg.job == j then c.maxRetries + 1 else 0
  }

  ghost predicate Bounded(c: Config, w: World, j: JobId)
  {
    Attempted(w, j) + Potential(c, w, j) <= Sum(BudgetOf(c, j), w.store.queue)
  }

  /** The budget is (max_retries + 1) times the sends and redeliveries. */
  lemma {:induction false} BudgetIsProduct(c: Config, q: seq<Envelope>, j: JobId)
    ensures Sum(BudgetOf(c, j), q) == (c.maxRetries + 1) * (Sum(ApiSendOf(j), q) + Sum(RedeliveryOf(j), q))
  {
    if q != [] {
      var n := |q| - 1;
      BudgetIsProduct(c, q[..n], j);
      Distribute(c.maxRetries, Sum(ApiSendOf(j), q[..n]) + Sum(RedeliveryOf(j), q[..n]),
                 ApiSendOf(j)(q[n]) + RedeliveryOf(j)(q[n]));
    }
  }

  /** The two sums after one more envelope. */
  lemma QueueAppended(c: Config, q: seq<Envelope>, e: Envelope, j: JobId)
    ensures Sum(WaitingPotential(c, j), q + [e]) == Sum(WaitingPotential(c, j), q) + WaitingPotential(c, j)(e)
    ensures Sum(BudgetOf(c, j), q + [e]) == Sum(BudgetOf(c, j), q) + BudgetOf(c, j)(e)
  {
    SumAppend(WaitingPotential(c, j), q, e);
    SumAppend(BudgetOf(c, j), q, e);
  }

  lemma DeliveryUpdated(c: Config, ds: seq<Delivery>, i: nat, d: Delivery, j: JobId)
    requires i < |ds|
    ensures Sum(AttemptOf(j), ds[i := d]) == Sum(AttemptOf(j), ds) - AttemptOf(j)(ds[i]) + AttemptOf(j)(d)
    ensures Sum(FlightPotential(c, j), ds[i := d])
         == Sum(FlightPotential(c, j), ds) - FlightPotential(c, j)(ds[i]) + FlightPotential(c, j)(d)
  {
    SumUpdate(AttemptOf(j), ds, i, d);
    SumUpdate(FlightPotential(c, j), ds, i, d);
  }

  lemma Distribute(m: nat, a: int, b: int)
    ensures (m + 1) * (a + b) == (m + 1) * a + (m + 1) * b
  {
  }

  lemma BoundedApi(c: Config, w: World, i: nat, raises: bool, j: JobId)
    requires CallsOk(c, w) && i < |w.calls| && Bounded(c, w, j)
    ensures Bounded(c, Step(c, w, Api(i, raises)), j)
  {
    var s, t := w.store, Step(c, w, Api(i, raises)).store;
    CallPublishes(c, s, w.calls[i], raises);
    if w.calls[i].phase.Flushed? && !raises {
      var e := t.queue[|s.queue|];
      QueueAppended(c, s.queue, e, j);
      assert e.msg.retries == 0;
    }
  }

  lemma BoundedDeliver(c: Config, w: World, q: nat, j: JobId)
    requires Enabled(w, Deliver(q)) && QueueOk(c, w.store) && Bounded(c, w, j)
    ensures Bounded(c, Step(c, w, Deliver(q)), j)
  {
    var s := w.store;
    assert MessageOk(c, s, s.queue[q].msg);
    var e := s.queue[q].(taken := true);
    var d := NewDelivery(s, s.queue[q].msg);
    SumUpdate(WaitingPotential(c, j), s.queue, q, e);
    SumUpdate(BudgetOf(c, j), s.queue, q, e);
    SumAppend(AttemptOf(j), w.deliveries, d);
    SumAppend(FlightPotential(c, j), w.deliveries, d);
  }

  /** The phase facts the potential needs: a retry is only reached from where one was possible. */
  lemma RequeuePhases(c: Config, s: Store, d: Delivery, x: Choice)
    requires Active(d) && DeliveryOk(c, s, d)
    ensures var n := Advance(c, s, d, x);
            && n.msg == d.msg && Attempt(n) == Attempt(d) && n.life == d.life
            && (MayRequeue(n) ==> MayRequeue(d)) && (d.phase.Requeueing? ==> MayRequeue(d) && !MayRequeue(n))
  {
  }

  lemma BoundedWork(c: Config, w: World, i: nat, x: Choice, j: JobId)
    requires Enabled(w, Work(i, x)) && DeliveriesOk(c, w) && Bounded(c, w, j)
    ensures Bounded(c, Step(c, w, Work(i, x)), j)
  {
    var s, d := w.store, w.deliveries[i];
    var v := Step(c, w, Work(i, x));
    EffectPublishes(c, s, d.msg, d.phase, x);
    RequeuePhases(c, s, d, x);
    DeliveryUpdated(c, w.deliveries, i, Advance(c, s, d, x), j);
    if d.phase.Requeueing? {
      QueueAppended(c, s.queue, Envelope(NextRetry(d.msg, s.now), FromRetry, false), j);
    }
  }

  /** What a delivery can still give rise to does not grow when its worker's life changes. */
  lemma LifeFalls(c: Config, d: Delivery, life: Life, j: JobId)
    requires d.msg.retries <= c.maxRetries && (life == d.life || !life.Alive?)
    ensures FlightPotential(c, j)(d.(life := life)) <= FlightPotential(c, j)(d)
    ensures AttemptOf(j)(d.(life := life)) == AttemptOf(j)(d)
  {
  }

  lemma BoundedCrash(c: Config, w: World, i: nat, j: JobId)
    requires Enabled(w, Crash(i)) && DeliveriesOk(c, w) && Bounded(c, w, j)
    ensures Bounded(c, Step(c, w, Crash(i)), j)
  {
    assert DeliveryOk(c, w.store, w.deliveries[i]);
    LifeFalls(c, w.deliveries[i], Crashed, j);
    DeliveryUpdated(c, w.deliveries, i, w.deliveries[i].(life := Crashed), j);
  }

  lemma BoundedRedeliver(c: Config, w: World, i: nat, j: JobId)
    requires Enabled(w, Redeliver(i)) && DeliveriesOk(c, w) && Bounded(c, w, j)
    ensures Bounded(c, Step(c, w, Redeliver(i)), j)
  {
    var d, e := w.deliveries[i], Envelope(w.deliveries[i].msg, FromRedelivery, false);
    var life := if d.life.Crashed? then Reclaimed else d.life;
    assert DeliveryOk(c, w.store, d);
    LifeFalls(c, d, life, j);
    DeliveryUpdated(c, w.deliveries, i, d.(life := life), j);
    QueueAppended(c, w.store.queue, e, j);
  }

  lemma BoundedStep(c: Config, w: World, e: Event, j: JobId)
    requires Inv(c, w) && Bounded(c, w, j)
    ensures Bounded(c, Step(c, w, e), j)
  {
    if Enabled(w, e) {
      match e
      case Api(i, raises) => BoundedApi(c, w, i, raises, j);
      case Deliver(q) => BoundedDeliver(c, w, q, j);
      case Work(i, x) => BoundedWork(c, w, i, x, j);
      case Crash(i) => BoundedCrash(c, w, i, j);
      case Redeliver(i) => BoundedRedeliver(c, w, i, j);
      case _ =>
    }
  }

  lemma {:induction false} RunBounded(c: Config, es: seq<Event>, j: JobId)
    ensures Bounded(c, Run(c, es), j)
  {
    if es != [] {
      RunBounded(c, es[..|es| - 1], j);
      RunInv(c, es[..|es| - 1]);
      BoundedStep(c, Run(c, es[..|es| - 1]), es[|es| - 1], j);
    }
  }

  lemma PotentialNonNegative(c: Config, w: World, j: JobId)
    requires QueueOk(c, w.store) && DeliveriesOk(c, w)
    ensures Potential(c, w, j) >= 0
  {
    forall q | 0 <= q < |w.store.queue| ensures WaitingPotential(c, j)(w.store.queue[q]) >= 0 {
      assert MessageOk(c, w.store, w.store.queue[q].msg);
    }
    forall i | 0 <= i < |w.deliveries| ensures FlightPotential(c, j)(w.deliveries[i]) >= 0 {
      assert DeliveryOk(c, w.store, w.deliveries[i]);
    }
    SumNonNegative(WaitingPotential(c, j), w.store.queue);
    SumNonNegative(FlightPotential(c, j), w.deliveries);
  }

  lemma MulMonotone(m: nat, a: int, b: int)
    requires a <= b
    ensures (m + 1) * a <= (m + 1) * b
  {
  }

  /** A job is attempted at most (max_retries + 1) times per redelivery, plus once for its own message. */
  lemma AttemptBound(c: Config, es: seq<Event>, j: JobId)
    ensures Attempted(Run(c, es), j) <= (c.maxRetries + 1) * (1 + Redeliveries(Run(c, es), j))
  {
    RunBounded(c, es, j);
    RunInv(c, es);
    PotentialNonNegative(c, Run(c, es), j);
    OneSendPerJob(c, es, j);
    BoundFollows(c, Run(c, es), j);
  }

  lemma BoundFollows(c: Config, w: World, j: JobId)
    requires Bounded(c, w, j) && Potential(c, w, j) >= 0 && OneSend(w, j)
    ensures Attempted(w, j) <= (c.maxRetries + 1) * (1 + Redeliveries(w, j))
  {
    BudgetIsProduct(c, w.store.queue, j);
    MulMonotone(c.maxRetries, ApiSends(w, j) + Redeliveries(w, j), 1 + Redeliveries(w, j));
  }
}
