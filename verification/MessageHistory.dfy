/**
 Where every message on the default queue comes from: the API's own publication, a retry that an
 attempt asked for, or a redelivery of exactly the message that a worker was given.
 */
module MessageHistory {
  import opened JobModel
  import opened Protocol
  import opened ApiInvariant
  import opened CreateRace
  import opened Lineage
  import opened JobStatusHistory
  import opened Sums

  /** An attempt that `m` is the retry of: one retry more, due the countdown after it was asked for. */
  predicate AskedBy(m: Message, d: Delivery, now: real)
  {
    && Attempt(d) && m == d.msg.(retries := d.msg.retries + 1, eta := m.eta)
    && d.start + (10 * Pow2(d.msg.retries)) as real <= m.eta <= now + (10 * Pow2(d.msg.retries)) as real
  }

  ghost predicate Derived(w: World, e: Envelope)
  {
    match e.origin
    case FromApi => e.msg.job in w.store.sent && e.msg == w.store.sent[e.msg.job] && e.msg.retries == 0
    case FromRetry => exists i :: 0 <= i < |w.deliveries| && AskedBy(e.msg, w.deliveries[i], w.store.now)
    case FromRedelivery => exists i :: 0 <= i < |w.deliveries| && w.deliveries[i].msg == e.msg
  }

  ghost predicate AllDerived(w: World)
  {
    forall q :: 0 <= q < |w.store.queue| ==> Derived(w, w.store.queue[q])
  }

  lemma DerivedKept(w: World, v: World, e: Envelope, f: Envelope)
    requires Derived(w, e) && f.msg == e.msg && f.origin == e.origin && w.store.now <= v.store.now
    requires forall j :: j in w.store.sent ==> j in v.store.sent && v.store.sent[j] == w.store.sent[j]
    requires |w.deliveries| <= |v.deliveries|
    requires forall i :: 0 <= i < |w.deliveries| ==> Later(w.deliveries[i], v.deliveries[i])
    ensures Derived(v, f)
  {
    if e.origin.FromRetry? {
      var i :| 0 <= i < |w.deliveries| && AskedBy(e.msg, w.deliveries[i], w.store.now);
      assert Later(w.deliveries[i], v.deliveries[i]);
      assert AskedBy(f.msg, v.deliveries[i], v.store.now);
    } else if e.origin.FromRedelivery? {
      var i :| 0 <= i < |w.deliveries| && w.deliveries[i].msg == e.msg;
      assert Later(w.deliveries[i], v.deliveries[i]);
    }
  }

  /** What is new at the end of the queue. */
  lemma NewIsDerived(c: Config, w: World, e: Event)
    requires CallsOk(c, w) && DeliveriesOk(c, w) && |Step(c, w, e).store.queue| > |w.store.queue|
    ensures Derived(Step(c, w, e), Step(c, w, e).store.queue[|w.store.queue|])
  {
    var v := Step(c, w, e);
    match e
    case Work(i, x) => RetryIsDerived(c, w, i, x);
    case Redeliver(i) =>
      assert v.store.queue[|w.store.queue|].msg == w.deliveries[i].msg;
      assert v.deliveries[i].msg == w.deliveries[i].msg;
    case Api(i, raises) => PublicationIsDerived(c, w, i, raises);
  }

  lemma RetryIsDerived(c: Config, w: World, i: nat, x: Choice)
    requires DeliveriesOk(c, w) && Enabled(w, Work(i, x)) && |Step(c, w, Work(i, x)).store.queue| > |w.store.queue|
    ensures Derived(Step(c, w, Work(i, x)), Step(c, w, Work(i, x)).store.queue[|w.store.queue|])
  {
    var d, v := w.deliveries[i], Step(c, w, Work(i, x));
    assert DeliveryOk(c, w.store, d);
    EffectPublishes(c, w.store, d.msg, d.phase, x);
    EffectFrame(c, w.store, d.msg, d.phase, x);
    assert AskedBy(v.store.queue[|w.store.queue|].msg, v.deliveries[i], v.store.now);
  }

  lemma PublicationIsDerived(c: Config, w: World, i: nat, raises: bool)
    requires CallsOk(c, w) && i < |w.calls| && |Step(c, w, Api(i, raises)).store.queue| > |w.store.queue|
    ensures Derived(Step(c, w, Api(i, raises)), Step(c, w, Api(i, raises)).store.queue[|w.store.queue|])
  {
    CallPublishes(c, w.store, w.calls[i], raises);
    CallQueue(c, w.store, w.calls[i], raises);
  }

  /** In every run each message is a first one of the API, a retry of an attempt, or a delivery's own message again. */
  lemma {:induction false} MessagesDerive(c: Config, es: seq<Event>)
    ensures AllDerived(Run(c, es))
  {
    if es != [] {
      var w, e := Run(c, es[..|es| - 1]), es[|es| - 1];
      var v := Step(c, w, e);
      MessagesDerive(c, es[..|es| - 1]);
      RunInv(c, es[..|es| - 1]);
      RunHistories(c, es[..|es| - 1]);
      NextDerived(c, w, e);
    }
  }

  lemma SentStays(c: Config, w: World, e: Event)
    requires Inv(c, w)
    ensures var s, t := w.store, Step(c, w, e).store;
            s.now <= t.now && forall j :: j in s.sent ==> j in t.sent && t.sent[j] == s.sent[j]
  {
    StepInv(c, w, e);
  }

  lemma NextDerived(c: Config, w: World, e: Event)
    requires Inv(c, w) && HistoriesOk(w) && AllDerived(w)
    ensures AllDerived(Step(c, w, e))
  {
    var v := Step(c, w, e);
    QueueGrows(c, w, e);
    SentStays(c, w, e);
    DeliveriesAdvance(c, w, e);
    if |v.store.queue| > |w.store.queue| {
      NewIsDerived(c, w, e);
    }
    DerivedGrows(w, v);
  }

  lemma DerivedGrows(w: World, v: World)
    requires AllDerived(w) && w.store.now <= v.store.now
    requires forall j :: j in w.store.sent ==> j in v.store.sent && v.store.sent[j] == w.store.sent[j]
    requires |w.deliveries| <= |v.deliveries|
    requires forall i :: 0 <= i < |w.deliveries| ==> Later(w.deliveries[i], v.deliveries[i])
    requires |w.store.queue| <= |v.store.queue| <= |w.store.queue| + 1
    requires forall q :: 0 <= q < |w.store.queue| ==>
               v.store.queue[q].msg == w.store.queue[q].msg && v.store.queue[q].origin == w.store.queue[q].origin
    requires |v.store.queue| > |w.store.queue| ==> Derived(v, v.store.queue[|w.store.queue|])
    ensures AllDerived(v)
  {
    forall q | 0 <= q < |v.store.queue| ensures Derived(v, v.store.queue[q]) {
      if q < |w.store.queue| {
        DerivedKept(w, v, w.store.queue[q], v.store.queue[q]);
      }
    }
  }

  // ---------------------------------------------------------------------------
  // One delivery for each message taken
  // ---------------------------------------------------------------------------

  function TakenOf(m: Message): Envelope -> int
  {
    (e: Envelope) => if e.taken && e.msg == m then 1 else 0
  }

  function GivenOf(m: Message): Delivery -> int
  {
    (d: Delivery) => if d.msg == m then 1 else 0
  }

  ghost predicate TakenOnce(w: World, m: Message)
  {
    Sum(TakenOf(m), w.store.queue) == Sum(GivenOf(m), w.deliveries)
  }

  lemma TakenWork(c: Config, w: World, i: nat, x: Choice, m: Message)
    requires Enabled(w, Work(i, x)) && TakenOnce(w, m)
    ensures TakenOnce(Step(c, w, Work(i, x)), m)
  {
    var d := w.deliveries[i];
    EffectPublishes(c, w.store, d.msg, d.phase, x);
    SumAppend(TakenOf(m), w.store.queue, Envelope(NextRetry(d.msg, w.store.now), FromRetry, false));
    SumUpdate(GivenOf(m), w.deliveries, i, Advance(c, w.store, d, x));
  }

  lemma TakenApi(c: Config, w: World, i: nat, raises: bool, m: Message)
    requires i < |w.calls| && TakenOnce(w, m)
    ensures TakenOnce(Step(c, w, Api(i, raises)), m)
  {
    var t := CallStep(c, w.store, w.calls[i], raises).0;
    CallPublishes(c, w.store, w.calls[i], raises);
    if |t.queue| > |w.store.queue| {
      SumAppend(TakenOf(m), w.store.queue, t.queue[|w.store.queue|]);
    }
  }

  lemma TakenBroker(c: Config, w: World, e: Event, m: Message)
    requires Enabled(w, e) && (e.Deliver? || e.Redeliver? || e.Crash?) && TakenOnce(w, m)
    ensures TakenOnce(Step(c, w, e), m)
  {
    var s, v := w.store, Step(c, w, e);
    match e
    case Deliver(q) =>
      SumUpdate(TakenOf(m), s.queue, q, s.queue[q].(taken := true));
      SumAppend(GivenOf(m), w.deliveries, NewDelivery(s, s.queue[q].msg));
    case Redeliver(i) =>
      SumAppend(TakenOf(m), s.queue, Envelope(w.deliveries[i].msg, FromRedelivery, false));
      SumUpdate(GivenOf(m), w.deliveries, i, v.deliveries[i]);
    case Crash(i) => SumUpdate(GivenOf(m), w.deliveries, i, v.deliveries[i]);
  }

  /** Every copy of a message that was taken from the queue went to exactly one delivery. */
  lemma {:induction false} EachTakenOnce(c: Config, es: seq<Event>, m: Message)
    ensures TakenOnce(Run(c, es), m)
  {
    if es != [] {
      var w, e := Run(c, es[..|es| - 1]), es[|es| - 1];
      EachTakenOnce(c, es[..|es| - 1], m);
      if Enabled(w, e) {
        match e
        case Work(i, x) => TakenWork(c, w, i, x, m);
        case Api(i, raises) => TakenApi(c, w, i, raises, m);
        case Open(_) =>
        case Tick(_) =>
        case _ => TakenBroker(c, w, e, m);
      }
    }
  }
}
