/**
 Agreement of the two places a result is kept: while a key's cache entry is live, the row's result
 column holds the same value, even after crashes in the middle of on_success.
 */
module CacheAgreement {
  import opened JobModel
  import opened Protocol
  import opened ApiInvariant
  import opened JobStatusHistory
  import opened Idempotency

  predicate Unexpired(s: Store, k: Key)
  {
    k in s.cache && s.now < s.cache[k].expires
  }

  /**
   For deliveries of this key: database writes work, results are not null, and the job is committed
   before it is delivered. Other keys may fare as they will.
   */
  predicate Healthy(w: World, e: Event, k: Key)
  {
    && (e.Work? && Enabled(w, e) && w.deliveries[e.delivery].msg.key == k ==> e.x.dbOk && e.x.outcome != Success(Null))
    && (e.Deliver? && Enabled(w, e) && w.store.queue[e.envelope].msg.key == k ==>
          w.store.queue[e.envelope].msg.job in w.store.rows)
  }

  /** A run of healthy events in which deliveries of the key do not overlap. */
  ghost predicate HealthyRun(c: Config, es: seq<Event>, k: Key)
  {
    es != [] ==>
      var before := es[..|es| - 1];
      HealthyRun(c, before, k) && Serial(Run(c, before), k) && Healthy(Run(c, before), es[|es| - 1], k)
  }

  /** The row under a key. */
  predicate HasRow(s: Store, k: Key)
  {
    k in s.index && s.index[k] in s.rows
  }

  predicate DeliveryAgrees(s: Store, k: Key, d: Delivery)
  {
    && (d.msg.key == k ==> HasRow(s, k) && s.index[k] == d.msg.job)
    && (d.msg.key == k && HasReturned(d.phase) ==> ReturnedValue(d.phase) != Null)
    && (ActiveOn(d, k) ==>
          && (d.phase.Executing? || FreshWindow(d.phase) ==> !Unexpired(s, k))
          && (HitWindow(d.phase) ==> k in s.cache && s.cache[k].value == d.phase.value)
          && (d.phase.Counting? || d.phase.Storing? ==> s.rows[s.index[k]].result == d.phase.value))
  }

  ghost predicate CacheAgrees(s: Store, k: Key)
  {
    && (k in s.cache ==> HasRow(s, k))
    && (k in s.cache ==> s.cache[k].value != Null)
    && (Unexpired(s, k) ==> s.rows[s.index[k]].result == s.cache[k].value)
  }

  ghost predicate Agree(w: World, k: Key)
  {
    && CacheAgrees(w.store, k)
    && (forall i :: 0 <= i < |w.deliveries| ==> DeliveryAgrees(w.store, k, w.deliveries[i]))
  }

  // ---------------------------------------------------------------------------
  // Steps of the workers
  // ---------------------------------------------------------------------------

  /** The only effect on a result column. */
  lemma EffectResult(c: Config, s: Store, msg: Message, p: Phase, x: Choice)
    requires msg.job in s.rows && x.dbOk
    ensures var t := Effect(c, s, msg, p, x);
            msg.job in t.rows && t.rows[msg.job].result ==
              if p.Completing? && p.value != Null then p.value else s.rows[msg.job].result
  {
    if !Updates(p) {
      OtherEffects(c, s, msg, p, x);
    }
  }

  lemma OwnWork(c: Config, s: Store, d: Delivery, x: Choice, k: Key)
    requires d.msg.key == k && Active(d) && CacheAgrees(s, k) && DeliveryAgrees(s, k, d)
    requires x.dbOk && x.outcome != Success(Null)
    ensures var t := Effect(c, s, d.msg, d.phase, x);
            CacheAgrees(t, k) && DeliveryAgrees(t, k, Advance(c, s, d, x))
  {
    EffectFrame(c, s, d.msg, d.phase, x);
    EffectCache(c, s, d.msg, d.phase, x);
    EffectResult(c, s, d.msg, d.phase, x);
    var t := Effect(c, s, d.msg, d.phase, x);
    assert t.index == s.index && t.now == s.now && HasRow(t, k);
    assert CacheAgrees(t, k);
    OwnAdvance(c, s, t, d, x, k);
  }

  lemma OwnAdvance(c: Config, s: Store, t: Store, d: Delivery, x: Choice, k: Key)
    requires d.msg.key == k && Active(d) && CacheAgrees(s, k) && DeliveryAgrees(s, k, d)
    requires x.outcome != Success(Null)
    requires t.index == s.index && t.now == s.now && HasRow(t, k)
    requires t.cache ==
             if d.phase.Storing? then s.cache[k := Entry(d.phase.value, s.now + c.resultTtl as real)] else s.cache
    requires t.rows[t.index[k]].result ==
             if d.phase.Completing? && d.phase.value != Null then d.phase.value else s.rows[s.index[k]].result
    ensures DeliveryAgrees(t, k, Advance(c, s, d, x))
  {
  }

  /** A step on another key leaves this key's entry and row alone. */
  lemma ForeignWork(c: Config, s: Store, d: Delivery, x: Choice, k: Key)
    requires d.msg.key != k && CacheAgrees(s, k)
    requires HasRow(s, k) ==> s.index[k] != d.msg.job
    ensures var t := Effect(c, s, d.msg, d.phase, x);
            && CacheAgrees(t, k) && t.index == s.index && t.now == s.now
            && (k in t.cache <==> k in s.cache) && (k in s.cache ==> t.cache[k] == s.cache[k])
            && (HasRow(s, k) ==> HasRow(t, k) && t.rows[t.index[k]] == s.rows[s.index[k]])
  {
    EffectFrame(c, s, d.msg, d.phase, x);
    EffectCache(c, s, d.msg, d.phase, x);
  }

  /** A delivery of another key has another job than this key's row. */
  lemma OtherJob(c: Config, s: Store, d: Delivery, k: Key)
    requires IndexOk(s) && SentOk(s) && DeliveryOk(c, s, d) && d.msg.key != k && HasRow(s, k)
    ensures s.index[k] != d.msg.job
  {
    assert RowSent(s, s.index[k], s.rows[s.index[k]]);
  }

  lemma AgreeWork(c: Config, w: World, i: nat, x: Choice, k: Key)
    requires IndexOk(w.store) && SentOk(w.store) && DeliveriesOk(c, w) && Agree(w, k) && Serial(w, k)
    requires Enabled(w, Work(i, x)) && Healthy(w, Work(i, x), k)
    ensures Agree(Step(c, w, Work(i, x)), k)
  {
    var v := Step(c, w, Work(i, x));
    var d := w.deliveries[i];
    assert DeliveryAgrees(w.store, k, d) && DeliveryOk(c, w.store, d);
    if d.msg.key == k {
      OwnWork(c, w.store, d, x, k);
      EffectFrame(c, w.store, d.msg, d.phase, x);
    } else {
      if HasRow(w.store, k) {
        OtherJob(c, w.store, d, k);
      }
      ForeignWork(c, w.store, d, x, k);
    }
    forall n | 0 <= n < |v.deliveries| ensures DeliveryAgrees(v.store, k, v.deliveries[n]) {
      assert DeliveryAgrees(w.store, k, w.deliveries[n]);
      if n != i && d.msg.key == k {
        assert !ActiveOn(w.deliveries[n], k);
      }
    }
  }

  // ---------------------------------------------------------------------------
  // Steps of the others
  // ---------------------------------------------------------------------------

  /** Calls move neither the index entry, nor the result, of a committed row. */
  lemma CallKeepsRow(c: Config, s: Store, call: Call, raises: bool, k: Key)
    requires IndexOk(s) && CallOk(c, s, call) && HasRow(s, k)
    ensures var t := CallStep(c, s, call, raises).0;
            HasRow(t, k) && t.index[k] == s.index[k] && t.rows[t.index[k]].result == s.rows[s.index[k]].result
  {
    if !raises && (call.phase.Absent? || call.phase.Original?) {
      FlushKeepsRow(c, s, call, k);
    }
  }

  lemma FlushKeepsRow(c: Config, s: Store, call: Call, k: Key)
    requires (call.phase.Absent? || call.phase.Original?) && HasRow(s, k)
    ensures var t := CallProceeds(c, s, call).0; t.index[k := s.index[k]] == t.index && t.rows == s.rows
  {
  }

  lemma AgreeApi(c: Config, w: World, i: nat, raises: bool, k: Key)
    requires Inv(c, w) && Agree(w, k) && i < |w.calls|
    ensures Agree(Step(c, w, Api(i, raises)), k)
  {
    var v := Step(c, w, Api(i, raises));
    CallCache(c, w.store, w.calls[i], raises);
    assert CallOk(c, w.store, w.calls[i]);
    if HasRow(w.store, k) {
      CallKeepsRow(c, w.store, w.calls[i], raises, k);
    }
    forall n | 0 <= n < |v.deliveries| ensures DeliveryAgrees(v.store, k, v.deliveries[n]) {
      assert DeliveryAgrees(w.store, k, w.deliveries[n]);
    }
  }

  /** A message of the key that is taken up belongs to the key's row. */
  lemma NewAgrees(c: Config, s: Store, m: Message, k: Key)
    requires IndexOk(s) && SentOk(s) && MessageOk(c, s, m) && (m.key == k ==> m.job in s.rows)
    ensures DeliveryAgrees(s, k, NewDelivery(s, m))
  {
    if m.key == k {
      assert RowSent(s, m.job, s.rows[m.job]);
    }
  }

  lemma AgreeBroker(c: Config, w: World, e: Event, k: Key)
    requires IndexOk(w.store) && SentOk(w.store) && QueueOk(c, w.store) && Agree(w, k)
    requires Enabled(w, e) && Healthy(w, e, k) && !e.Work? && !e.Api?
    ensures Agree(Step(c, w, e), k)
  {
    var v := Step(c, w, e);
    StepDeliveries(c, w, e);
    forall n | 0 <= n < |v.deliveries| ensures DeliveryAgrees(v.store, k, v.deliveries[n]) {
      if n < |w.deliveries| {
        OnlyLife(w, e, n);
        StillAgrees(w.store, v.store, k, w.deliveries[n], v.deliveries[n]);
      } else {
        assert MessageOk(c, w.store, w.store.queue[e.envelope].msg);
        NewAgrees(c, w.store, w.store.queue[e.envelope].msg, k);
      }
    }
  }

  /** Time and a change of life take no agreement away. */
  lemma StillAgrees(s: Store, t: Store, k: Key, d: Delivery, f: Delivery)
    requires DeliveryAgrees(s, k, d) && f == d.(life := f.life) && (Active(f) ==> Active(d))
    requires t.cache == s.cache && t.rows == s.rows && t.index == s.index && s.now <= t.now
    ensures DeliveryAgrees(t, k, f)
  {
  }

  lemma {:induction false} RunAgrees(c: Config, es: seq<Event>, k: Key)
    requires HealthyRun(c, es, k)
    ensures Agree(Run(c, es), k)
  {
    if es != [] {
      var w, e := Run(c, es[..|es| - 1]), es[|es| - 1];
      RunAgrees(c, es[..|es| - 1], k);
      RunInv(c, es[..|es| - 1]);
      if Enabled(w, e) {
        match e
        case Work(i, x) => AgreeWork(c, w, i, x, k);
        case Api(i, raises) => AgreeApi(c, w, i, raises, k);
        case _ => AgreeBroker(c, w, e, k);
      }
    }
  }

  /**
   While a job's key is cached and unexpired, the job's result column equals the cached value, in
   every state of the run, through crashes between any two lines of on_success.
   */
  lemma CacheAndRowAgree(c: Config, es: seq<Event>, j: JobId)
    requires j in Run(c, es).store.rows
    requires HealthyRun(c, es, Run(c, es).store.rows[j].key)
    requires Unexpired(Run(c, es).store, Run(c, es).store.rows[j].key)
    ensures var s := Run(c, es).store; s.rows[j].result == s.cache[s.rows[j].key].value
  {
    RunAgrees(c, es, Run(c, es).store.rows[j].key);
    RunInv(c, es);
  }
}
