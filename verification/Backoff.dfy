/** Exponential backoff, in real time and under redelivery. */
module Backoff {
  import opened JobModel
  import opened Protocol
  import opened ApiInvariant
  import opened CreateRace
  import opened JobStatusHistory

  /** 10 * (2^r - 1): the seconds of countdown behind retry number r. */
  function TotalDelay(r: nat): nat
  {
    10 * (Pow2(r) - 1)
  }

  function RequestedUpTo(r: nat): nat
  {
    if r == 0 then 0 else RequestedUpTo(r - 1) + Countdown(r - 1)
  }

  /** The countdowns requested along a full chain add up to 10 * (2^m - 1) seconds, for every m. */
  lemma {:induction false} ChainBackoff(m: nat)
    ensures RequestedUpTo(m) == TotalDelay(m)
  {
    if m > 0 {
      ChainBackoff(m - 1);
    }
  }

  /** When the job's first attempt started. */
  function FirstStart(ds: seq<Delivery>, j: JobId): Option<real>
  {
    if ds == [] then None
    else
      var d := ds[|ds| - 1];
      var earlier := FirstStart(ds[..|ds| - 1], j);
      if earlier.Some? then earlier
      else if Attempt(d) && d.msg.job == j then Some(d.start)
      else None
  }

  lemma FirstStartAppend(ds: seq<Delivery>, d: Delivery, j: JobId)
    ensures FirstStart(ds + [d], j) ==
            if FirstStart(ds, j).Some? then FirstStart(ds, j)
            else if Attempt(d) && d.msg.job == j then Some(d.start) else None
  {
    assert (ds + [d])[..|ds|] == ds;
  }

  lemma {:induction false} FirstStartKept(ds: seq<Delivery>, fs: seq<Delivery>, j: JobId)
    requires |ds| == |fs| && forall i :: 0 <= i < |ds| ==> Later(ds[i], fs[i])
    ensures FirstStart(ds, j) == FirstStart(fs, j)
  {
    if ds != [] {
      FirstStartKept(ds[..|ds| - 1], fs[..|fs| - 1], j);
      assert Later(ds[|ds| - 1], fs[|fs| - 1]);
    }
  }

  /** The first start is the start of some delivery, hence not in the future. */
  lemma {:induction false} FirstStartPast(ds: seq<Delivery>, j: JobId, now: real)
    requires forall i :: 0 <= i < |ds| ==> ds[i].start <= now
    ensures FirstStart(ds, j).Some? ==> FirstStart(ds, j).value <= now
  {
    if ds != [] {
      FirstStartPast(ds[..|ds| - 1], j, now);
    }
  }

  predicate NotBefore(first: Option<real>, r: nat, time: real)
  {
    first.Some? && time >= first.value + TotalDelay(r) as real
  }

  predicate MessageTimed(first: Option<real>, j: JobId, m: Message)
  {
    m.job == j && m.retries > 0 ==> NotBefore(first, m.retries, m.eta)
  }

  predicate DeliveryTimed(first: Option<real>, j: JobId, d: Delivery)
  {
    && MessageTimed(first, j, d.msg)
    && (Attempt(d) && d.msg.job == j ==> NotBefore(first, d.msg.retries, d.start))
  }

  ghost predicate Timed(w: World, j: JobId)
  {
    var first := FirstStart(w.deliveries, j);
    && (forall q :: 0 <= q < |w.store.queue| ==> MessageTimed(first, j, w.store.queue[q].msg))
    && (forall i :: 0 <= i < |w.deliveries| ==> DeliveryTimed(first, j, w.deliveries[i]))
    && (forall i :: 0 <= i < |w.deliveries| ==> w.deliveries[i].start <= w.store.now)
  }

  /** A retry asked for now is not due before its backoff. */
  lemma RetryTimed(first: Option<real>, j: JobId, d: Delivery, now: real)
    requires DeliveryTimed(first, j, d) && Attempt(d) && d.start <= now
    ensures MessageTimed(first, j, NextRetry(d.msg, now))
  {
    var r := d.msg.retries;
    assert TotalDelay(r + 1) == TotalDelay(r) + Countdown(r);
  }

  lemma TimedDeliver(c: Config, w: World, q: nat, j: JobId)
    requires Enabled(w, Deliver(q)) && Timed(w, j)
    ensures Timed(Step(c, w, Deliver(q)), j)
  {
    var m := w.store.queue[q].msg;
    var d := NewDelivery(w.store, m);
    var v := Step(c, w, Deliver(q));
    assert MessageTimed(FirstStart(w.deliveries, j), j, m);
    FirstStartAppend(w.deliveries, d, j);
    FirstStartPast(w.deliveries, j, w.store.now);
    forall i | 0 <= i < |v.deliveries| ensures DeliveryTimed(FirstStart(v.deliveries, j), j, v.deliveries[i]) {
      if i < |w.deliveries| {
        assert DeliveryTimed(FirstStart(w.deliveries, j), j, w.deliveries[i]);
      }
    }
    forall p | 0 <= p < |v.store.queue| ensures MessageTimed(FirstStart(v.deliveries, j), j, v.store.queue[p].msg) {
      assert MessageTimed(FirstStart(w.deliveries, j), j, w.store.queue[p].msg);
    }
  }

  lemma TimedWork(c: Config, w: World, i: nat, x: Choice, j: JobId)
    requires Enabled(w, Work(i, x)) && HistoriesOk(w) && Timed(w, j)
    ensures Timed(Step(c, w, Work(i, x)), j)
  {
    var v := Step(c, w, Work(i, x));
    var d := w.deliveries[i];
    var first := FirstStart(w.deliveries, j);
    DeliveriesAdvance(c, w, Work(i, x));
    FirstStartKept(w.deliveries, v.deliveries, j);
    EffectPublishes(c, w.store, d.msg, d.phase, x);
    EffectFrame(c, w.store, d.msg, d.phase, x);
    assert DeliveryTimed(first, j, d);
    RetryTimed(first, j, d, w.store.now);
    forall k | 0 <= k < |v.deliveries| ensures DeliveryTimed(first, j, v.deliveries[k]) {
      assert DeliveryTimed(first, j, w.deliveries[k]) && Later(w.deliveries[k], v.deliveries[k]);
    }
    forall p | 0 <= p < |v.store.queue| ensures MessageTimed(first, j, v.store.queue[p].msg) {
      if p < |w.store.queue| {
        assert MessageTimed(first, j, w.store.queue[p].msg);
      }
    }
  }

  lemma TimedBroker(c: Config, w: World, e: Event, j: JobId)
    requires Enabled(w, e) && HistoriesOk(w) && Timed(w, j) && (e.Crash? || e.Redeliver? || e.Tick? || e.Open?)
    ensures Timed(Step(c, w, e), j)
  {
    var v := Step(c, w, e);
    var first := FirstStart(w.deliveries, j);
    DeliveriesAdvance(c, w, e);
    FirstStartKept(w.deliveries, v.deliveries, j);
    forall k | 0 <= k < |v.deliveries| ensures DeliveryTimed(first, j, v.deliveries[k]) {
      assert DeliveryTimed(first, j, w.deliveries[k]) && Later(w.deliveries[k], v.deliveries[k]);
    }
    forall p | 0 <= p < |v.store.queue| ensures MessageTimed(first, j, v.store.queue[p].msg) {
      if p < |w.store.queue| {
        assert MessageTimed(first, j, w.store.queue[p].msg);
      } else {
        assert DeliveryTimed(first, j, w.deliveries[e.delivery]);
      }
    }
  }

  lemma TimedApi(c: Config, w: World, i: nat, raises: bool, j: JobId)
    requires i < |w.calls| && Timed(w, j)
    ensures Timed(Step(c, w, Api(i, raises)), j)
  {
    var v := Step(c, w, Api(i, raises));
    CallQueue(c, w.store, w.calls[i], raises);
    ApiQueueTimed(w.store, v.store, FirstStart(w.deliveries, j), j);
  }

  /** A message from the API has retry number 0, for which there is nothing to wait. */
  lemma ApiQueueTimed(s: Store, t: Store, first: Option<real>, j: JobId)
    requires forall p :: 0 <= p < |s.queue| ==> MessageTimed(first, j, s.queue[p].msg)
    requires |s.queue| <= |t.queue| <= |s.queue| + 1
    requires forall p :: 0 <= p < |s.queue| ==> t.queue[p] == s.queue[p]
    requires |s.queue| < |t.queue| ==> t.queue[|s.queue|].msg.retries == 0
    ensures forall p :: 0 <= p < |t.queue| ==> MessageTimed(first, j, t.queue[p].msg)
  {
    forall p | 0 <= p < |t.queue| ensures MessageTimed(first, j, t.queue[p].msg) {
      if p < |s.queue| {
        assert MessageTimed(first, j, s.queue[p].msg);
      }
    }
  }

  lemma {:induction false} RunTimed(c: Config, es: seq<Event>, j: JobId)
    ensures Timed(Run(c, es), j)
  {
    if es != [] {
      var w, e := Run(c, es[..|es| - 1]), es[|es| - 1];
      RunTimed(c, es[..|es| - 1], j);
      RunHistories(c, es[..|es| - 1]);
      if Enabled(w, e) {
        match e
        case Deliver(q) => TimedDeliver(c, w, q, j);
        case Work(i, x) => TimedWork(c, w, i, x, j);
        case Api(i, raises) => TimedApi(c, w, i, raises, j);
        case _ => TimedBroker(c, w, e, j);
      }
    }
  }

  /**
   No attempt with retry number r starts earlier than 10 * (2^r - 1) seconds after the job's first
   attempt, whatever is crashed, redelivered or copied in between.
   */
  lemma RealTimeBackoff(c: Config, es: seq<Event>, i: nat)
    requires i < |Run(c, es).deliveries| && Attempt(Run(c, es).deliveries[i])
    ensures var ds := Run(c, es).deliveries; var first := FirstStart(ds, ds[i].msg.job);
            && first.Some?
            && ds[i].start >= first.value + (10 * (Pow2(ds[i].msg.retries) - 1)) as real
  {
    var ds := Run(c, es).deliveries;
    RunTimed(c, es, ds[i].msg.job);
    assert DeliveryTimed(FirstStart(ds, ds[i].msg.job), ds[i].msg.job, ds[i]);
  }
}
