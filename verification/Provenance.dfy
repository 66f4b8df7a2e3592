/**
 Where results come from: every value that is cached under a key, and every value that a delivery
 returns, was produced by an execute() call of some delivery with that key; and when that delivery
 must have been the job's own.
 */
module Provenance {
  import opened JobModel
  import opened Protocol
  import opened ApiInvariant
  import opened CreateRace
  import opened Lineage
  import opened JobStatusHistory
  import opened Idempotency
  import opened KeyOwnership
  import opened Sums

  // ---------------------------------------------------------------------------
  // Every value was produced
  // ---------------------------------------------------------------------------

  predicate IsFresh(p: Phase)
  {
    FreshWindow(p) || EndedFresh(p)
  }

  /** In this delivery execute() returned `v`, under key `k`. */
  predicate Producer(d: Delivery, k: Key, v: Value)
  {
    d.msg.key == k && IsFresh(d.phase) && ReturnedValue(d.phase) == v
  }

  ghost predicate Produced(ds: seq<Delivery>, k: Key, v: Value)
  {
    exists i :: 0 <= i < |ds| && Producer(ds[i], k, v)
  }

  ghost predicate EntriesProduced(w: World)
  {
    forall k :: k in w.store.cache ==> Produced(w.deliveries, k, w.store.cache[k].value)
  }

  ghost predicate ReturnsProduced(w: World)
  {
    forall i :: 0 <= i < |w.deliveries| && HasReturned(w.deliveries[i].phase) ==>
      Produced(w.deliveries, w.deliveries[i].msg.key, ReturnedValue(w.deliveries[i].phase))
  }

  /** A later state of a delivery: what it produced, it still has. */
  predicate FreshKept(a: Delivery, b: Delivery)
  {
    b.msg == a.msg && (IsFresh(a.phase) ==> IsFresh(b.phase) && ReturnedValue(b.phase) == ReturnedValue(a.phase))
  }

  ghost predicate AllFreshKept(ds: seq<Delivery>, fs: seq<Delivery>)
  {
    |ds| <= |fs| && forall i :: 0 <= i < |ds| ==> FreshKept(ds[i], fs[i])
  }

  lemma ProducedKept(ds: seq<Delivery>, fs: seq<Delivery>, k: Key, v: Value)
    requires Produced(ds, k, v) && AllFreshKept(ds, fs)
    ensures Produced(fs, k, v)
  {
    var i :| 0 <= i < |ds| && Producer(ds[i], k, v);
    assert FreshKept(ds[i], fs[i]);
  }

  lemma AdvanceFresh(c: Config, s: Store, d: Delivery, x: Choice)
    requires Active(d)
    ensures FreshKept(d, Advance(c, s, d, x))
  {
  }

  lemma StepFresh(c: Config, w: World, e: Event)
    ensures AllFreshKept(w.deliveries, Step(c, w, e).deliveries)
  {
    var v := Step(c, w, e);
    if Enabled(w, e) && e.Work? {
      AdvanceFresh(c, w.store, w.deliveries[e.delivery], e.x);
    } else if Enabled(w, e) {
      StepDeliveries(c, w, e);
      forall i | 0 <= i < |w.deliveries| ensures FreshKept(w.deliveries[i], v.deliveries[i]) {
        OnlyLife(w, e, i);
      }
    }
  }

  /** What a delivery has returned after a step: what it had returned, a cache entry, or its own result. */
  lemma AdvanceReturns(c: Config, s: Store, d: Delivery, x: Choice)
    requires Active(d) && HasReturned(Advance(c, s, d, x).phase)
    ensures var n := Advance(c, s, d, x); var v := ReturnedValue(n.phase);
            || (HasReturned(d.phase) && v == ReturnedValue(d.phase))
            || (d.phase.Checking? && CheckIdempotency(s, d.msg.key) == Some(v))
            || (d.phase.Executing? && Producer(n, d.msg.key, v))
  {
  }

  lemma WorkReturns(c: Config, w: World, i: nat, x: Choice)
    requires Enabled(w, Work(i, x)) && EntriesProduced(w) && ReturnsProduced(w)
    ensures ReturnsProduced(Step(c, w, Work(i, x)))
  {
    var d, v := w.deliveries[i], Step(c, w, Work(i, x));
    StepFresh(c, w, Work(i, x));
    forall n | 0 <= n < |v.deliveries| && HasReturned(v.deliveries[n].phase)
      ensures Produced(v.deliveries, v.deliveries[n].msg.key, ReturnedValue(v.deliveries[n].phase))
    {
      var value := ReturnedValue(v.deliveries[n].phase);
      if n == i {
        AdvanceReturns(c, w.store, d, x);
      }
      if Produced(w.deliveries, v.deliveries[n].msg.key, value) {
        ProducedKept(w.deliveries, v.deliveries, v.deliveries[n].msg.key, value);
      } else {
        assert Producer(v.deliveries[i], d.msg.key, value);
      }
    }
  }

  lemma WorkEntries(c: Config, w: World, i: nat, x: Choice)
    requires Enabled(w, Work(i, x)) && EntriesProduced(w) && ReturnsProduced(w)
    ensures EntriesProduced(Step(c, w, Work(i, x)))
  {
    var d, v := w.deliveries[i], Step(c, w, Work(i, x));
    StepFresh(c, w, Work(i, x));
    EffectCache(c, w.store, d.msg, d.phase, x);
    forall k | k in v.store.cache ensures Produced(v.deliveries, k, v.store.cache[k].value) {
      if d.phase.Storing? && k == d.msg.key {
        assert Produced(w.deliveries, k, ReturnedValue(d.phase));
      }
      ProducedKept(w.deliveries, v.deliveries, k, v.store.cache[k].value);
    }
  }

  lemma OtherProduced(c: Config, w: World, e: Event)
    requires Enabled(w, e) && !e.Work? && EntriesProduced(w) && ReturnsProduced(w)
    ensures EntriesProduced(Step(c, w, e)) && ReturnsProduced(Step(c, w, e))
  {
    var v := Step(c, w, e);
    StepFresh(c, w, e);
    StepCache(c, w, e);
    StepDeliveries(c, w, e);
    forall k | k in v.store.cache ensures Produced(v.deliveries, k, v.store.cache[k].value) {
      ProducedKept(w.deliveries, v.deliveries, k, v.store.cache[k].value);
    }
    forall n | 0 <= n < |v.deliveries| && HasReturned(v.deliveries[n].phase)
      ensures Produced(v.deliveries, v.deliveries[n].msg.key, ReturnedValue(v.deliveries[n].phase))
    {
      if n < |w.deliveries| {
        OnlyLife(w, e, n);
        ProducedKept(w.deliveries, v.deliveries, w.deliveries[n].msg.key, ReturnedValue(w.deliveries[n].phase));
      }
    }
  }

  /**
   In every run each cached value and each returned value is one that execute() returned in some
   delivery with the same key: nothing else ever enters the cache.
   */
  lemma {:induction false} RunProduced(c: Config, es: seq<Event>)
    ensures EntriesProduced(Run(c, es)) && ReturnsProduced(Run(c, es))
  {
    if es != [] {
      var w, e := Run(c, es[..|es| - 1]), es[|es| - 1];
      RunProduced(c, es[..|es| - 1]);
      if Enabled(w, e) {
        if e.Work? {
          WorkReturns(c, w, e.delivery, e.x);
          WorkEntries(c, w, e.delivery, e.x);
        } else {
          OtherProduced(c, w, e);
        }
      }
    }
  }

  // ---------------------------------------------------------------------------
  // When the producer is the job itself
  // ---------------------------------------------------------------------------

  /** A delivery of job `j` itself produced `v`. */
  ghost predicate Own(ds: seq<Delivery>, j: JobId, k: Key, v: Value)
  {
    exists i :: 0 <= i < |ds| && ds[i].msg.job == j && Producer(ds[i], k, v)
  }

  /** The message behind a delivery is on record under its job. */
  lemma DeliveryHasKey(c: Config, es: seq<Event>, j: JobId, i: nat)
    requires j in Run(c, es).store.rows && i < |Run(c, es).deliveries| && Run(c, es).deliveries[i].msg.job == j
    ensures Run(c, es).deliveries[i].msg.key == Run(c, es).store.rows[j].key
  {
    RunInv(c, es);
    var w := Run(c, es);
    assert DeliveryOk(c, w.store, w.deliveries[i]) && RowSent(w.store, j, w.store.rows[j]);
  }

  /** Where only the job's own messages carry its key, only its own deliveries do. */
  lemma ProducerIsOwn(c: Config, w: World, j: JobId, k: Key, v: Value)
    requires DeliveriesOk(c, w) && SentOk(w.store) && AllEnqueued(w.store) && KeyIsOwn(w.store, k, j)
    requires Produced(w.deliveries, k, v)
    ensures Own(w.deliveries, j, k, v)
  {
    var i :| 0 <= i < |w.deliveries| && Producer(w.deliveries[i], k, v);
    assert DeliveryOk(c, w.store, w.deliveries[i]);
    assert Enqueued(w.store, w.deliveries[i].msg.job);
  }

  /**
   A committed job whose key no rolled-back call has sent: every value cached under its key, and
   every value one of its deliveries returns, came from an execute() call of its own.
   */
  lemma ResultsAreOwn(c: Config, es: seq<Event>, j: JobId)
    requires j in Run(c, es).store.rows
    requires Sum(OrphansOf(Run(c, es).store.rows[j].key), Run(c, es).calls) == 0
    ensures var w := Run(c, es); var k := w.store.rows[j].key;
            && (k in w.store.cache ==> Own(w.deliveries, j, k, w.store.cache[k].value))
            && forall i :: 0 <= i < |w.deliveries| && w.deliveries[i].msg.job == j && HasReturned(w.deliveries[i].phase)
                 ==> Own(w.deliveries, j, k, ReturnedValue(w.deliveries[i].phase))
  {
    var w := Run(c, es);
    var k := w.store.rows[j].key;
    RunInv(c, es);
    RunEnqueues(c, es);
    RunProduced(c, es);
    KeyIsOwnIff(c, es, j);
    if k in w.store.cache {
      ProducerIsOwn(c, w, j, k, w.store.cache[k].value);
    }
    forall i | 0 <= i < |w.deliveries| && w.deliveries[i].msg.job == j && HasReturned(w.deliveries[i].phase)
      ensures Own(w.deliveries, j, k, ReturnedValue(w.deliveries[i].phase))
    {
      DeliveryHasKey(c, es, j, i);
      ProducerIsOwn(c, w, j, k, ReturnedValue(w.deliveries[i].phase));
    }
  }

  /** No delivery of another job carries a DLQ retry's key. */
  lemma RetryProducerIsOwn(c: Config, w: World, j: JobId, v: Value)
    requires DeliveriesOk(c, w) && RetryKeysOwn(w.store) && j in w.store.rows && w.store.rows[j].parent.Some?
    requires Produced(w.deliveries, w.store.rows[j].key, v)
    ensures Own(w.deliveries, j, w.store.rows[j].key, v)
  {
    var i :| 0 <= i < |w.deliveries| && Producer(w.deliveries[i], w.store.rows[j].key, v);
    assert DeliveryOk(c, w.store, w.deliveries[i]);
    assert SoleSender(w.store, j, w.store.rows[j]);
  }

  /**
   A DLQ retry is never suppressed or contaminated: what is cached under its key, one of its own
   deliveries produced.
   */
  lemma RetryNeverSuppressed(c: Config, es: seq<Event>, j: JobId)
    requires j in Run(c, es).store.rows && Run(c, es).store.rows[j].parent.Some?
    requires Run(c, es).store.rows[j].key in Run(c, es).store.cache
    ensures var w := Run(c, es); var k := w.store.rows[j].key;
            Own(w.deliveries, j, k, w.store.cache[k].value)
  {
    RunProduced(c, es);
    RunOwns(c, es);
    RunInv(c, es);
    RetryProducerIsOwn(c, Run(c, es), j, Run(c, es).store.cache[Run(c, es).store.rows[j].key].value);
  }

  /** A DLQ retry's first attempt always reaches execute(): until a delivery of the job has executed, a check misses. */
  lemma RetryFirstAttemptExecutes(c: Config, es: seq<Event>, j: JobId, i: nat, x: Choice)
    requires j in Run(c, es).store.rows && Run(c, es).store.rows[j].parent.Some?
    requires i < |Run(c, es).deliveries| && Active(Run(c, es).deliveries[i])
    requires Run(c, es).deliveries[i].msg.job == j && Run(c, es).deliveries[i].phase.Checking?
    requires forall n :: 0 <= n < |Run(c, es).deliveries| && Run(c, es).deliveries[n].msg.job == j ==>
               !FreshWindow(Run(c, es).deliveries[n].phase) && !EndedFresh(Run(c, es).deliveries[n].phase)
    ensures Run(c, es + [Work(i, x)]).deliveries[i].phase == Executing
  {
    assert (es + [Work(i, x)])[..|es|] == es;
    DeliveryHasKey(c, es, j, i);
    if Run(c, es).store.rows[j].key in Run(c, es).store.cache {
      RetryNeverSuppressed(c, es, j);
    }
  }
}
