/**
 No schedule keeps the workers busy for ever: every delivery, worker step and crash pays for
 itself out of what the API's sends and the broker's redeliveries put in.
 */
module Termination {
  import opened JobModel
  import opened Protocol
  import opened ApiInvariant
  import opened CreateRace
  import opened Attempts
  import opened Sums

  predicate WorkerEvent(e: Event)
  {
    e.Deliver? || e.Work? || e.Crash?
  }

  /** How many deliveries, worker steps and crashes of the schedule really took place. */
  function Effort(c: Config, es: seq<Event>): nat
  {
    if es == [] then 0
    else
      var before := es[..|es| - 1];
      var e := es[|es| - 1];
      Effort(c, before) + if WorkerEvent(e) && Enabled(Run(c, before), e) then 1 else 0
  }

  /** on_failure inside run() is followed by Celery's own, five effects later. */
  function Again(pass: Pass): nat
  {
    if pass.OwnCall? then 5 else 0
  }

  /** An upper bound on the steps a delivery has left, its ack included. */
  function StepsLeft(p: Phase): nat
  {
    match p
    case Starting => 14
    case Checking => 13
    case Executing => 12
    case Completing(_, _) => 4
    case Counting(_, _) => 3
    case Storing(_, _) => 2
    case Requeueing => 3
    case CountingRetry => 2
    case DlqSending(pass) => 6 + Again(pass)
    case WritingFailed(pass) => 5 + Again(pass)
    case WritingDlq(pass) => 4 + Again(pass)
    case CountingFailed(pass) => 3 + Again(pass)
    case Gauging(pass) => 2 + Again(pass)
    case Acking(_) => 1
    case Finished(_) => 0
    case Discarded => 0
  }

  const PER_ATTEMPT := 15

  function WaitingWork(c: Config): Envelope -> int
  {
    (e: Envelope) => if e.taken then 0 else PER_ATTEMPT * (c.maxRetries + 1 - e.msg.retries)
  }

  function FlightWork(c: Config): Delivery -> int
  {
    (d: Delivery) =>
      if !d.life.Alive? then 0
      else StepsLeft(d.phase) + if MayRequeue(d) then PER_ATTEMPT * (c.maxRetries - d.msg.retries) else 0
  }

  /** Envelopes put in from outside the workers: API sends and redeliveries. */
  function External(): Envelope -> int
  {
    (e: Envelope) => if e.origin.FromRetry? then 0 else 1
  }

  function WorkLeft(c: Config, w: World): int
  {
    Sum(WaitingWork(c), w.store.queue) + Sum(FlightWork(c), w.deliveries)
  }

  /** 15 * (max_retries + 1) steps for each API send and each redelivery. */
  function Supplied(c: Config, w: World): int
  {
    PER_ATTEMPT * (c.maxRetries + 1) * Sum(External(), w.store.queue)
  }

  /** The step itself uses up one unit of the work left. */
  lemma StepsFall(c: Config, s: Store, d: Delivery, x: Choice)
    requires Active(d) && DeliveryOk(c, s, d)
    ensures var n := Advance(c, s, d, x);
            FlightWork(c)(n) + (if d.phase.Requeueing? then PER_ATTEMPT * (c.maxRetries - d.msg.retries) else 0)
              <= FlightWork(c)(d) - 1
  {
  }

  lemma OneMore(c: Config, q: seq<Envelope>, e: Envelope)
    ensures Sum(WaitingWork(c), q + [e]) == Sum(WaitingWork(c), q) + WaitingWork(c)(e)
    ensures PER_ATTEMPT * (c.maxRetries + 1) * Sum(External(), q + [e])
         == PER_ATTEMPT * (c.maxRetries + 1) * Sum(External(), q) + PER_ATTEMPT * (c.maxRetries + 1) * External()(e)
  {
    SumAppend(WaitingWork(c), q, e);
    SumAppend(External(), q, e);
  }

  /** A worker event lowers the work left by at least one; any other event adds at most what it supplies. */
  lemma Pays(c: Config, w: World, e: Event)
    requires Inv(c, w)
    ensures var v := Step(c, w, e);
            WorkLeft(c, v) - Supplied(c, v) + (if WorkerEvent(e) && Enabled(w, e) then 1 else 0)
              <= WorkLeft(c, w) - Supplied(c, w)
  {
    if Enabled(w, e) {
      match e
      case Api(i, raises) => PaysApi(c, w, i, raises);
      case Deliver(q) => PaysDeliver(c, w, q);
      case Work(i, x) => PaysWork(c, w, i, x);
      case Crash(i) => PaysCrash(c, w, i);
      case Redeliver(i) => PaysRedeliver(c, w, i);
      case _ =>
    }
  }

  lemma PaysApi(c: Config, w: World, i: nat, raises: bool)
    requires i < |w.calls|
    ensures var v := Step(c, w, Api(i, raises));
            WorkLeft(c, v) - Supplied(c, v) <= WorkLeft(c, w) - Supplied(c, w)
  {
    CallPublishes(c, w.store, w.calls[i], raises);
    if w.calls[i].phase.Flushed? && !raises {
      OneMore(c, w.store.queue, Step(c, w, Api(i, raises)).store.queue[|w.store.queue|]);
    }
  }

  lemma PaysCrash(c: Config, w: World, i: nat)
    requires Inv(c, w) && Enabled(w, Crash(i))
    ensures var v := Step(c, w, Crash(i));
            WorkLeft(c, v) - Supplied(c, v) + 1 <= WorkLeft(c, w) - Supplied(c, w)
  {
    assert DeliveryOk(c, w.store, w.deliveries[i]);
    SumUpdate(FlightWork(c), w.deliveries, i, w.deliveries[i].(life := Crashed));
  }

  lemma PaysRedeliver(c: Config, w: World, i: nat)
    requires Inv(c, w) && Enabled(w, Redeliver(i))
    ensures var v := Step(c, w, Redeliver(i));
            WorkLeft(c, v) - Supplied(c, v) <= WorkLeft(c, w) - Supplied(c, w)
  {
    assert DeliveryOk(c, w.store, w.deliveries[i]);
    OneMore(c, w.store.queue, Envelope(w.deliveries[i].msg, FromRedelivery, false));
    SumUpdate(FlightWork(c), w.deliveries, i, Step(c, w, Redeliver(i)).deliveries[i]);
  }

  lemma PaysDeliver(c: Config, w: World, q: nat)
    requires Inv(c, w) && Enabled(w, Deliver(q))
    ensures var v := Step(c, w, Deliver(q));
            WorkLeft(c, v) - Supplied(c, v) + 1 <= WorkLeft(c, w) - Supplied(c, w)
  {
    var s := w.store;
    assert MessageOk(c, s, s.queue[q].msg);
    SumUpdate(WaitingWork(c), s.queue, q, s.queue[q].(taken := true));
    SumUpdate(External(), s.queue, q, s.queue[q].(taken := true));
    SumAppend(FlightWork(c), w.deliveries, NewDelivery(s, s.queue[q].msg));
  }

  lemma PaysWork(c: Config, w: World, i: nat, x: Choice)
    requires Inv(c, w) && Enabled(w, Work(i, x))
    ensures var v := Step(c, w, Work(i, x));
            WorkLeft(c, v) - Supplied(c, v) + 1 <= WorkLeft(c, w) - Supplied(c, w)
  {
    var s, d := w.store, w.deliveries[i];
    assert DeliveryOk(c, s, d);
    EffectPublishes(c, s, d.msg, d.phase, x);
    StepsFall(c, s, d, x);
    SumUpdate(FlightWork(c), w.deliveries, i, Advance(c, s, d, x));
    if d.phase.Requeueing? {
      OneMore(c, s.queue, Envelope(NextRetry(d.msg, s.now), FromRetry, false));
    }
  }

  lemma WorkLeftNonNegative(c: Config, w: World)
    requires QueueOk(c, w.store) && DeliveriesOk(c, w)
    ensures WorkLeft(c, w) >= 0
  {
    forall q | 0 <= q < |w.store.queue| ensures WaitingWork(c)(w.store.queue[q]) >= 0 {
      assert MessageOk(c, w.store, w.store.queue[q].msg);
    }
    forall i | 0 <= i < |w.deliveries| ensures FlightWork(c)(w.deliveries[i]) >= 0 {
      assert DeliveryOk(c, w.store, w.deliveries[i]);
    }
    SumNonNegative(WaitingWork(c), w.store.queue);
    SumNonNegative(FlightWork(c), w.deliveries);
  }

  lemma {:induction false} EffortPaid(c: Config, es: seq<Event>)
    ensures Effort(c, es) + WorkLeft(c, Run(c, es)) <= Supplied(c, Run(c, es))
  {
    if es != [] {
      EffortPaid(c, es[..|es| - 1]);
      RunInv(c, es[..|es| - 1]);
      Pays(c, Run(c, es[..|es| - 1]), es[|es| - 1]);
    }
  }

  /**
   In any run, however it is scheduled, the workers take at most as many steps as sends and
   redeliveries supply. With finitely many of those, every schedule comes to rest.
   */
  lemma Terminates(c: Config, es: seq<Event>)
    ensures Effort(c, es) <= Supplied(c, Run(c, es))
  {
    EffortPaid(c, es);
    RunInv(c, es);
    WorkLeftNonNegative(c, Run(c, es));
  }
}
