/**
 What the idempotency cache guarantees: exactly how often execute() takes effect under crashes,
 and how long a first result lasts under redelivery.
 */
module Idempotency {
  import opened JobModel
  import opened Protocol
  import opened ApiInvariant
  import opened JobStatusHistory
  import opened Sums

  /** A result that execute() produced and no cache hit. */
  predicate FreshWindow(p: Phase)
  {
    (p.Completing? || p.Counting? || p.Storing?) && !p.hit
  }

  predicate HitWindow(p: Phase)
  {
    (p.Completing? || p.Counting? || p.Storing?) && p.hit
  }

  predicate EndedFresh(p: Phase)
  {
    (p.Acking? || p.Finished?) && p.end.Returned? && !p.end.hit
  }

  predicate ActiveOn(d: Delivery, k: Key)
  {
    Active(d) && d.msg.key == k
  }

  // ---------------------------------------------------------------------------
  // The cache, step by step
  // ---------------------------------------------------------------------------

  lemma EffectCache(c: Config, s: Store, msg: Message, p: Phase, x: Choice)
    ensures Effect(c, s, msg, p, x).cache ==
            if p.Storing? then s.cache[msg.key := Entry(p.value, s.now + c.resultTtl as real)] else s.cache
  {
  }

  lemma CallCache(c: Config, s: Store, call: Call, raises: bool)
    ensures CallStep(c, s, call, raises).0.cache == s.cache && CallStep(c, s, call, raises).0.now == s.now
  {
    if raises {
    } else if call.phase.Absent? || call.phase.Original? {
    } else {
    }
  }

  lemma StepCache(c: Config, w: World, e: Event)
    ensures !e.Work? ==> Step(c, w, e).store.cache == w.store.cache
  {
    if e.Api? && Enabled(w, e) {
      CallCache(c, w.store, w.calls[e.call], e.raises);
    }
  }

  /** This event stores a result under the key. */
  predicate Stores(w: World, e: Event, k: Key)
  {
    Enabled(w, e) && e.Work? && w.deliveries[e.delivery].phase.Storing? && w.deliveries[e.delivery].msg.key == k
  }

  /** When a result was last stored under the key, and which. */
  function LastStore(c: Config, es: seq<Event>, k: Key): Option<(real, Value)>
  {
    if es == [] then None
    else
      var w, e := Run(c, es[..|es| - 1]), es[|es| - 1];
      if Stores(w, e, k) then Some((w.store.now, w.deliveries[e.delivery].phase.value))
      else LastStore(c, es[..|es| - 1], k)
  }

  lemma {:induction false} EntryIsLastStore(c: Config, es: seq<Event>, k: Key)
    ensures var s := Run(c, es).store;
            match LastStore(c, es, k)
            case None => k !in s.cache
            case Some((time, value)) => k in s.cache && s.cache[k] == Entry(value, time + c.resultTtl as real)
  {
    if es != [] {
      var w, e := Run(c, es[..|es| - 1]), es[|es| - 1];
      EntryIsLastStore(c, es[..|es| - 1], k);
      StepCache(c, w, e);
      if Enabled(w, e) && e.Work? {
        EffectCache(c, w.store, w.deliveries[e.delivery].msg, w.deliveries[e.delivery].phase, e.x);
      }
    }
  }

  /**
   A check is answered from the cache exactly when less than the result TTL has passed since a
   result was last stored under the key, and with that result, null or not.
   */
  lemma HitWithinTtlIff(c: Config, es: seq<Event>, i: nat, x: Choice)
    requires i < |Run(c, es).deliveries| && Active(Run(c, es).deliveries[i])
    requires Run(c, es).deliveries[i].phase.Checking?
    ensures var w := Run(c, es); var last := LastStore(c, es, w.deliveries[i].msg.key);
            Run(c, es + [Work(i, x)]).deliveries[i].phase ==
              if last.Some? && w.store.now < last.value.0 + c.resultTtl as real then Completing(last.value.1, true)
              else Executing
  {
    assert (es + [Work(i, x)])[..|es|] == es;
    EntryIsLastStore(c, es, Run(c, es).deliveries[i].msg.key);
  }

  // ---------------------------------------------------------------------------
  // Exact accounting of repeated effects
  // ---------------------------------------------------------------------------

  /** No two deliveries of the key are at work at once. */
  ghost predicate Serial(w: World, k: Key)
  {
    forall i, j :: 0 <= i < j < |w.deliveries| && ActiveOn(w.deliveries[i], k) ==> !ActiveOn(w.deliveries[j], k)
  }

  /** If this event checks the key's entry, the entry has not expired. */
  predicate InTime(w: World, e: Event, k: Key)
  {
    Enabled(w, e) && e.Work? && ActiveOn(w.deliveries[e.delivery], k) && w.deliveries[e.delivery].phase.Checking?
      && k in w.store.cache
    ==> w.store.now < w.store.cache[k].expires
  }

  /** Deliveries of the key never overlap and its entry never expires before a check. */
  ghost predicate SerialInTime(c: Config, es: seq<Event>, k: Key)
  {
    es != [] ==>
      var before := es[..|es| - 1];
      SerialInTime(c, before, k) && Serial(Run(c, before), k) && InTime(Run(c, before), es[|es| - 1], k)
  }

  /** Successful executions. */
  function ExecutedOn(k: Key): Delivery -> int
  {
    (d: Delivery) => if d.msg.key == k && (FreshWindow(d.phase) || EndedFresh(d.phase)) then 1 else 0
  }

  /** Executions whose result was stored. */
  function StoredOn(k: Key): Delivery -> int
  {
    (d: Delivery) => if d.msg.key == k && EndedFresh(d.phase) then 1 else 0
  }

  /** Crashes between a successful execute and its cache store. */
  function LostOn(k: Key): Delivery -> int
  {
    (d: Delivery) => if d.msg.key == k && FreshWindow(d.phase) && !d.life.Alive? then 1 else 0
  }

  /** Deliveries now between a successful execute and its cache store. */
  function OpenOn(k: Key): Delivery -> int
  {
    (d: Delivery) => if d.msg.key == k && FreshWindow(d.phase) && d.life.Alive? then 1 else 0
  }

  predicate DeliveryFits(s: Store, k: Key, d: Delivery)
  {
    ActiveOn(d, k) ==>
      && (k in s.cache ==> !d.phase.Executing? && !FreshWindow(d.phase))
      && (HitWindow(d.phase) ==> k in s.cache)
  }

  ghost predicate CacheExact(w: World, k: Key)
  {
    && Sum(StoredOn(k), w.deliveries) == (if k in w.store.cache then 1 else 0)
    && (forall i :: 0 <= i < |w.deliveries| ==> DeliveryFits(w.store, k, w.deliveries[i]))
  }

  lemma AdvanceFits(c: Config, s: Store, d: Delivery, x: Choice, k: Key)
    requires ActiveOn(d, k) && DeliveryFits(s, k, d)
    requires d.phase.Checking? && k in s.cache ==> s.now < s.cache[k].expires
    ensures var t := Effect(c, s, d.msg, d.phase, x); var n := Advance(c, s, d, x);
            && DeliveryFits(t, k, n)
            && StoredOn(k)(n) - StoredOn(k)(d) == (if k in t.cache then 1 else 0) - (if k in s.cache then 1 else 0)
  {
    EffectCache(c, s, d.msg, d.phase, x);
  }

  lemma CacheExactWork(c: Config, w: World, i: nat, x: Choice, k: Key)
    requires Enabled(w, Work(i, x)) && Serial(w, k) && InTime(w, Work(i, x), k) && CacheExact(w, k)
    ensures CacheExact(Step(c, w, Work(i, x)), k)
  {
    var v := Step(c, w, Work(i, x));
    var d := w.deliveries[i];
    EffectCache(c, w.store, d.msg, d.phase, x);
    SumUpdate(StoredOn(k), w.deliveries, i, v.deliveries[i]);
    if d.msg.key == k {
      assert DeliveryFits(w.store, k, d);
      AdvanceFits(c, w.store, d, x, k);
    }
    forall n | 0 <= n < |v.deliveries| ensures DeliveryFits(v.store, k, v.deliveries[n]) {
      if n != i {
        assert DeliveryFits(w.store, k, w.deliveries[n]);
        if d.msg.key == k {
          assert !ActiveOn(w.deliveries[n], k);
        }
      }
    }
  }

  lemma CacheExactOther(w: World, v: World, e: Event, k: Key)
    requires Enabled(w, e) && !e.Work? && CacheExact(w, k)
    requires v.deliveries == DeliveriesAfter(w, e) && v.store.cache == w.store.cache
    ensures CacheExact(v, k)
  {
    forall n | 0 <= n < |w.deliveries| ensures StoredOn(k)(v.deliveries[n]) == StoredOn(k)(w.deliveries[n]) {
      OnlyLife(w, e, n);
    }
    SumOther(StoredOn(k), w, e);
    forall n | 0 <= n < |v.deliveries| ensures DeliveryFits(v.store, k, v.deliveries[n]) {
      if n < |w.deliveries| {
        OnlyLife(w, e, n);
        assert DeliveryFits(w.store, k, w.deliveries[n]);
      }
    }
  }

  lemma {:induction false} RunCacheExact(c: Config, es: seq<Event>, k: Key)
    requires SerialInTime(c, es, k)
    ensures CacheExact(Run(c, es), k)
  {
    if es != [] {
      var w, e := Run(c, es[..|es| - 1]), es[|es| - 1];
      RunCacheExact(c, es[..|es| - 1], k);
      if Enabled(w, e) {
        if e.Work? {
          CacheExactWork(c, w, e.delivery, e.x, k);
        } else {
          StepCache(c, w, e);
          StepDeliveries(c, w, e);
          CacheExactOther(w, Run(c, es), e, k);
        }
      }
    }
  }

  lemma {:induction false} SplitExecutions(ds: seq<Delivery>, k: Key)
    ensures Sum(ExecutedOn(k), ds) == Sum(StoredOn(k), ds) + Sum(LostOn(k), ds) + Sum(OpenOn(k), ds)
  {
    if ds != [] {
      SplitExecutions(ds[..|ds| - 1], k);
    }
  }

  /**
   Non-overlapping deliveries of a key, checked before its entry expires: execute() has succeeded
   once if the key is cached, once more for each crash between a success and its store, and once
   more if a delivery is in that window now.
   */
  lemma EffectsExact(c: Config, es: seq<Event>, k: Key)
    requires SerialInTime(c, es, k)
    ensures var w := Run(c, es);
            Sum(ExecutedOn(k), w.deliveries)
              == (if k in w.store.cache then 1 else 0) + Sum(LostOn(k), w.deliveries) + Sum(OpenOn(k), w.deliveries)
  {
    RunCacheExact(c, es, k);
    SplitExecutions(Run(c, es).deliveries, k);
  }

  /** Once the key is cached, no delivery of it is executing or about to store a new result. */
  lemma NoExecutionAfterStore(c: Config, es: seq<Event>, k: Key, i: nat)
    requires SerialInTime(c, es, k) && k in Run(c, es).store.cache
    requires i < |Run(c, es).deliveries| && ActiveOn(Run(c, es).deliveries[i], k)
    ensures !Run(c, es).deliveries[i].phase.Executing? && !FreshWindow(Run(c, es).deliveries[i].phase)
  {
    RunCacheExact(c, es, k);
    assert DeliveryFits(Run(c, es).store, k, Run(c, es).deliveries[i]);
  }

  // ---------------------------------------------------------------------------
  // The sliding window
  // ---------------------------------------------------------------------------

  /** Every check of the key in `fs`, run after `es`, comes before the entry's expiry. */
  ghost predicate ChecksInTime(c: Config, es: seq<Event>, fs: seq<Event>, k: Key)
  {
    fs != [] ==>
      var gs := fs[..|fs| - 1];
      ChecksInTime(c, es, gs, k) && InTime(Run(c, es + gs), fs[|fs| - 1], k)
  }

  function ReturnedValue(p: Phase): Value
    requires HasReturned(p)
  {
    if p.Acking? || p.Finished? then p.end.value else p.value
  }

  predicate Returns(d: Delivery, v: Value)
  {
    HasReturned(d.phase) ==> ReturnedValue(d.phase) == v
  }

  /** The key is cached with `v`, and no delivery at work on it can produce another value. */
  ghost predicate Settled(w: World, k: Key, v: Value)
  {
    && k in w.store.cache && w.store.cache[k].value == v
    && (forall i :: 0 <= i < |w.deliveries| && ActiveOn(w.deliveries[i], k) ==>
          !w.deliveries[i].phase.Executing? && Returns(w.deliveries[i], v))
  }

  /** Deliveries in which execute() was called. */
  predicate CalledExecute(p: Phase)
  {
    match p
    case Starting => false
    case Checking => false
    case Discarded => false
    case Completing(_, hit) => !hit
    case Counting(_, hit) => !hit
    case Storing(_, hit) => !hit
    case Acking(Returned(_, hit)) => !hit
    case Finished(Returned(_, hit)) => !hit
    case _ => true
  }

  function ExecuteCallsOn(k: Key): Delivery -> int
  {
    (d: Delivery) => if d.msg.key == k && CalledExecute(d.phase) then 1 else 0
  }

  /** Deliveries from number `n` on return `v` if they return at all. */
  ghost predicate LaterReturn(w: World, n: nat, k: Key, v: Value)
  {
    forall i :: n <= i < |w.deliveries| && w.deliveries[i].msg.key == k ==> Returns(w.deliveries[i], v)
  }

  lemma AdvanceSettled(c: Config, s: Store, d: Delivery, x: Choice, k: Key, v: Value)
    requires ActiveOn(d, k) && !d.phase.Executing? && Returns(d, v)
    requires k in s.cache && s.cache[k].value == v && (d.phase.Checking? ==> s.now < s.cache[k].expires)
    ensures var n := Advance(c, s, d, x); var t := Effect(c, s, d.msg, d.phase, x);
            && !n.phase.Executing? && Returns(n, v) && k in t.cache && t.cache[k].value == v
            && ExecuteCallsOn(k)(n) == ExecuteCallsOn(k)(d)
  {
    EffectCache(c, s, d.msg, d.phase, x);
  }

  lemma SettledWork(c: Config, w: World, i: nat, x: Choice, k: Key, v: Value, n: nat)
    requires Enabled(w, Work(i, x)) && Settled(w, k, v) && InTime(w, Work(i, x), k) && LaterReturn(w, n, k, v)
    ensures var u := Step(c, w, Work(i, x));
            && Settled(u, k, v) && LaterReturn(u, n, k, v)
            && Sum(ExecuteCallsOn(k), u.deliveries) == Sum(ExecuteCallsOn(k), w.deliveries)
  {
    var u := Step(c, w, Work(i, x));
    var d := w.deliveries[i];
    EffectCache(c, w.store, d.msg, d.phase, x);
    SumUpdate(ExecuteCallsOn(k), w.deliveries, i, u.deliveries[i]);
    if d.msg.key == k {
      AdvanceSettled(c, w.store, d, x, k, v);
    }
  }

  lemma SettledOther(w: World, u: World, e: Event, k: Key, v: Value, n: nat)
    requires Enabled(w, e) && !e.Work? && Settled(w, k, v) && LaterReturn(w, n, k, v)
    requires u.deliveries == DeliveriesAfter(w, e) && u.store.cache == w.store.cache
    ensures Settled(u, k, v) && LaterReturn(u, n, k, v)
    ensures Sum(ExecuteCallsOn(k), u.deliveries) == Sum(ExecuteCallsOn(k), w.deliveries)
  {
    forall i | 0 <= i < |w.deliveries|
      ensures ExecuteCallsOn(k)(u.deliveries[i]) == ExecuteCallsOn(k)(w.deliveries[i])
    {
      OnlyLife(w, e, i);
    }
    SumOther(ExecuteCallsOn(k), w, e);
  }

  /**
   Once a key is cached with a value, null included, and no other result is under way: as long as
   every check comes within the TTL of the last store, over any number of redeliveries execute()
   is not called again and every later delivery that returns, returns that value.
   */
  lemma {:induction false} SlidingWindow(c: Config, es: seq<Event>, fs: seq<Event>, k: Key, v: Value)
    requires Settled(Run(c, es), k, v) && ChecksInTime(c, es, fs, k)
    ensures var u := Run(c, es + fs);
            && Settled(u, k, v)
            && LaterReturn(u, |Run(c, es).deliveries|, k, v)
            && Sum(ExecuteCallsOn(k), u.deliveries) == Sum(ExecuteCallsOn(k), Run(c, es).deliveries)
  {
    RunMore(c, es, fs);
    if fs != [] {
      var gs, e := fs[..|fs| - 1], fs[|fs| - 1];
      SlidingWindow(c, es, gs, k, v);
      var w := Run(c, es + gs);
      if Enabled(w, e) {
        if e.Work? {
          SettledWork(c, w, e.delivery, e.x, k, v, |Run(c, es).deliveries|);
        } else {
          StepCache(c, w, e);
          StepDeliveries(c, w, e);
          SettledOther(w, Run(c, es + fs), e, k, v, |Run(c, es).deliveries|);
        }
      }
    }
  }
}
