/**
 Exactly when a committed job can still return another job's result. The messages of creates that
 were rolled back after their send keep the job's key; what they execute is cached under it.
 */
module ForeignResults {
  import opened JobModel
  import opened Protocol
  import opened ApiInvariant
  import opened BaseTaskModel
  import opened JobStatusHistory
  import opened Idempotency
  import opened Finality
  import opened Provenance
  import opened Uninterrupted

  // ---------------------------------------------------------------------------
  // The condition
  // ---------------------------------------------------------------------------

  /** Every value that a delivery of job `j` has returned is the job's own. */
  ghost predicate ResultsOwn(w: World, j: JobId, k: Key)
  {
    forall i :: 0 <= i < |w.deliveries| && w.deliveries[i].msg.job == j && HasReturned(w.deliveries[i].phase) ==>
      Own(w.deliveries, j, k, ReturnedValue(w.deliveries[i].phase))
  }

  predicate AboutToCheck(d: Delivery, j: JobId)
  {
    d.msg.job == j && Active(d) && (d.phase.Starting? || d.phase.Checking?)
  }

  ghost predicate NoneChecks(w: World, j: JobId)
  {
    forall i :: 0 <= i < |w.deliveries| ==> !AboutToCheck(w.deliveries[i], j)
  }

  /** No delivery of the job will ever check the cache again. */
  ghost predicate NoSink(w: World, j: JobId)
    requires j in w.store.rows
  {
    NoneChecks(w, j) && (IsRevoked(w.store, w.store.rows[j]) || NoCopies(w, j))
  }

  predicate ForeignCopy(e: Envelope, j: JobId, k: Key)
  {
    e.msg.key == k && e.msg.job != j && !e.taken
  }

  predicate ForeignReturnable(d: Delivery, j: JobId, k: Key)
  {
    d.msg.key == k && d.msg.job != j && Unacked(d) && !d.life.Reclaimed?
  }

  /** The broker holds no other job's message with the key. */
  ghost predicate NoSource(w: World, j: JobId, k: Key)
  {
    && (forall q :: 0 <= q < |w.store.queue| ==> !ForeignCopy(w.store.queue[q], j, k))
    && (forall i :: 0 <= i < |w.deliveries| ==> !ForeignReturnable(w.deliveries[i], j, k))
  }

  /** What a check would find now is the job's own. */
  ghost predicate EntryOwn(w: World, j: JobId, k: Key)
  {
    CheckIdempotency(w.store, k).Some? ==> Own(w.deliveries, j, k, w.store.cache[k].value)
  }

  /** All of the job's messages left with the broker are due at `expires` or later. */
  ghost predicate AllLate(w: World, j: JobId, expires: real)
  {
    && (forall i :: 0 <= i < |w.deliveries| ==> !Returnable(w.deliveries[i], j))
    && (forall q :: 0 <= q < |w.store.queue| && Copy(w.store.queue[q], j) ==> expires <= w.store.queue[q].msg.eta)
  }

  /** Whatever of the job can still check comes after the entry's expiry. */
  ghost predicate ChecksTooLate(w: World, j: JobId, k: Key)
    requires j in w.store.rows
  {
    && NoneChecks(w, j)
    && (IsRevoked(w.store, w.store.rows[j])
        || (k in w.store.cache && AllLate(w, j, w.store.cache[k].expires)))
  }

  /** The job's results are its own and will be: nobody checks, or there is nothing foreign to find in time. */
  ghost predicate Secure(w: World, j: JobId, k: Key)
    requires j in w.store.rows
  {
    && ResultsOwn(w, j, k)
    && (NoSink(w, j) || (NoSource(w, j, k) && (EntryOwn(w, j, k) || ChecksTooLate(w, j, k))))
  }

  // ---------------------------------------------------------------------------
  // What holds of every reachable state
  // ---------------------------------------------------------------------------

  /** Only committed jobs are revoked. */
  ghost predicate RevokedRow(s: Store, r: CeleryId)
  {
    exists j :: j in s.rows && s.rows[j].celeryId == Some(r)
  }

  ghost predicate RevokedOk(s: Store)
  {
    forall r :: r in s.revoked ==> RevokedRow(s, r)
  }

  /** Nothing was delivered before it was due. */
  ghost predicate DeliveredDue(w: World)
  {
    forall i :: 0 <= i < |w.deliveries| ==> w.deliveries[i].msg.eta <= w.store.now
  }

  ghost predicate Sound(c: Config, w: World, j: JobId, k: Key)
  {
    Inv(c, w) && RevokedOk(w.store) && DeliveredDue(w) && j in w.store.rows && w.store.rows[j].key == k
  }

  lemma CallRevokes(c: Config, s: Store, call: Call, raises: bool, r: CeleryId)
    requires CallOk(c, s, call) && r in CallStep(c, s, call, raises).0.revoked && r !in s.revoked
    ensures RevokedRow(s, r)
  {
    assert s.rows[call.request.job].celeryId == Some(r);
  }

  lemma RevokedStep(c: Config, w: World, e: Event)
    requires Inv(c, w) && RevokedOk(w.store)
    ensures RevokedOk(Step(c, w, e).store)
  {
    var v := Step(c, w, e);
    forall r | r in v.store.revoked ensures RevokedRow(v.store, r) {
      if r !in w.store.revoked {
        NewlyRevoked(c, w, e, r);
      }
      var j :| j in w.store.rows && w.store.rows[j].celeryId == Some(r);
      RowStaysCommitted(c, w, e, j);
    }
  }

  lemma NewlyRevoked(c: Config, w: World, e: Event, r: CeleryId)
    requires CallsOk(c, w) && r in Step(c, w, e).store.revoked && r !in w.store.revoked
    ensures RevokedRow(w.store, r)
  {
    if e.Work? {
      EffectFrame(c, w.store, w.deliveries[e.delivery].msg, w.deliveries[e.delivery].phase, e.x);
    } else if e.Api? {
      CallRevokes(c, w.store, w.calls[e.call], e.raises, r);
    }
  }

  lemma DueStep(c: Config, w: World, e: Event)
    requires DeliveredDue(w) && w.store.now <= Step(c, w, e).store.now
    ensures DeliveredDue(Step(c, w, e))
  {
    var v := Step(c, w, e);
    if Enabled(w, e) && !e.Work? {
      StepDeliveries(c, w, e);
      forall i | 0 <= i < |v.deliveries| ensures v.deliveries[i].msg.eta <= v.store.now {
        if i < |w.deliveries| {
          OnlyLife(w, e, i);
        }
      }
    }
  }

  lemma SoundStep(c: Config, w: World, e: Event, j: JobId, k: Key)
    requires Sound(c, w, j, k)
    ensures Sound(c, Step(c, w, e), j, k)
  {
    StepInv(c, w, e);
    RevokedStep(c, w, e);
    DueStep(c, w, e);
    RowStaysCommitted(c, w, e, j);
  }

  lemma {:induction false} RunSound(c: Config, es: seq<Event>)
    ensures Inv(c, Run(c, es)) && RevokedOk(Run(c, es).store) && DeliveredDue(Run(c, es))
  {
    if es != [] {
      var w, e := Run(c, es[..|es| - 1]), es[|es| - 1];
      RunSound(c, es[..|es| - 1]);
      StepInv(c, w, e);
      RevokedStep(c, w, e);
      DueStep(c, w, e);
    }
  }

  /** A message of another job with the key belongs to no committed row. */
  lemma ForeignHasNoRow(c: Config, w: World, m: Message, j: JobId, k: Key, i: JobId)
    requires Sound(c, w, j, k) && MessageOk(c, w.store, m) && m.key == k && m.job != j && i in w.store.rows
    ensures m.job != i && w.store.rows[i].celeryId != Some(m.id)
  {
    assert RowSent(w.store, i, w.store.rows[i]);
  }

  /** So it is never revoked. */
  lemma ForeignNotRevoked(c: Config, w: World, m: Message, j: JobId, k: Key)
    requires Sound(c, w, j, k) && MessageOk(c, w.store, m) && m.key == k && m.job != j
    ensures m.id !in w.store.revoked && m.job !in w.store.rows
  {
    forall i | i in w.store.rows ensures m.job != i && w.store.rows[i].celeryId != Some(m.id) {
      ForeignHasNoRow(c, w, m, j, k, i);
    }
    assert m.id in w.store.revoked ==> RevokedRow(w.store, m.id);
  }

  // ---------------------------------------------------------------------------
  // Secure stays secure
  // ---------------------------------------------------------------------------

  lemma OwnKept(ds: seq<Delivery>, fs: seq<Delivery>, j: JobId, k: Key, v: Value)
    requires Own(ds, j, k, v) && AllFreshKept(ds, fs)
    ensures Own(fs, j, k, v)
  {
    var i :| 0 <= i < |ds| && ds[i].msg.job == j && Producer(ds[i], k, v);
    assert FreshKept(ds[i], fs[i]);
  }

  /** A delivery of the job that checks finds its own entry, if any. */
  ghost predicate SafeCheck(w: World, e: Event, j: JobId, k: Key)
  {
    Enabled(w, e) && e.Work? && AboutToCheck(w.deliveries[e.delivery], j) ==> EntryOwn(w, j, k)
  }

  lemma OwnWork(c: Config, w: World, i: nat, x: Choice, j: JobId, k: Key)
    requires Enabled(w, Work(i, x)) && ResultsOwn(w, j, k) && SafeCheck(w, Work(i, x), j, k)
    requires w.deliveries[i].msg.job == j && w.deliveries[i].msg.key == k
    requires HasReturned(Advance(c, w.store, w.deliveries[i], x).phase)
    ensures var v := Step(c, w, Work(i, x));
            Own(v.deliveries, j, k, ReturnedValue(Advance(c, w.store, w.deliveries[i], x).phase))
  {
    var d, n, v := w.deliveries[i], Advance(c, w.store, w.deliveries[i], x), Step(c, w, Work(i, x));
    StepFresh(c, w, Work(i, x));
    AdvanceReturns(c, w.store, d, x);
    if Own(w.deliveries, j, k, ReturnedValue(n.phase)) {
      OwnKept(w.deliveries, v.deliveries, j, k, ReturnedValue(n.phase));
    } else {
      assert Producer(v.deliveries[i], k, ReturnedValue(n.phase));
    }
  }

  lemma ResultsStep(c: Config, w: World, e: Event, j: JobId, k: Key)
    requires Sound(c, w, j, k) && ResultsOwn(w, j, k) && SafeCheck(w, e, j, k)
    ensures ResultsOwn(Step(c, w, e), j, k)
  {
    var v := Step(c, w, e);
    StepFresh(c, w, e);
    forall i | 0 <= i < |v.deliveries| && v.deliveries[i].msg.job == j && HasReturned(v.deliveries[i].phase)
      ensures Own(v.deliveries, j, k, ReturnedValue(v.deliveries[i].phase))
    {
      if Enabled(w, e) && e.Work? && e.delivery == i {
        JobHasKey(c, w, i, j, k);
        OwnWork(c, w, i, e.x, j, k);
      } else {
        SamePhase(c, w, e, i);
        OwnKept(w.deliveries, v.deliveries, j, k, ReturnedValue(v.deliveries[i].phase));
      }
    }
  }

  lemma JobHasKey(c: Config, w: World, i: nat, j: JobId, k: Key)
    requires DeliveriesOk(c, w) && SentOk(w.store) && j in w.store.rows && w.store.rows[j].key == k
    requires i < |w.deliveries| && w.deliveries[i].msg.job == j
    ensures w.deliveries[i].msg.key == k
  {
    assert DeliveryOk(c, w.store, w.deliveries[i]) && RowSent(w.store, j, w.store.rows[j]);
  }

  /** Only its own steps change a delivery's phase. */
  lemma SamePhase(c: Config, w: World, e: Event, i: nat)
    requires i < |Step(c, w, e).deliveries| && !(Enabled(w, e) && e.Work? && e.delivery == i)
    requires HasReturned(Step(c, w, e).deliveries[i].phase)
    ensures i < |w.deliveries| && w.deliveries[i].phase == Step(c, w, e).deliveries[i].phase
    ensures w.deliveries[i].msg == Step(c, w, e).deliveries[i].msg
  {
    if Enabled(w, e) && !e.Work? {
      StepDeliveries(c, w, e);
      if i < |w.deliveries| {
        OnlyLife(w, e, i);
      }
    }
  }

  // Nobody checks.

  /** A step of a delivery never leads back to its check. */
  lemma NoCheckAgain(c: Config, s: Store, d: Delivery, x: Choice, j: JobId)
    requires Active(d) && !AboutToCheck(d, j)
    ensures !AboutToCheck(Advance(c, s, d, x), j)
  {
  }

  /** No delivery starts, and none that has checked comes back to it. */
  lemma NoneChecksStep(c: Config, w: World, e: Event, j: JobId)
    requires NoneChecks(w, j)
    requires Enabled(w, e) && e.Deliver? && w.store.queue[e.envelope].msg.job == j ==>
               w.store.queue[e.envelope].msg.id in w.store.revoked
    ensures NoneChecks(Step(c, w, e), j)
  {
    var v := Step(c, w, e);
    forall i | 0 <= i < |v.deliveries| ensures !AboutToCheck(v.deliveries[i], j) {
      if i < |w.deliveries| {
        assert !AboutToCheck(w.deliveries[i], j);
        if Enabled(w, e) && e.Work? && e.delivery == i {
          NoCheckAgain(c, w.store, w.deliveries[i], e.x, j);
        } else if Enabled(w, e) && !e.Work? {
          StepDeliveries(c, w, e);
          OnlyLife(w, e, i);
        }
      }
    }
  }

  /** The message of a committed job carries its row's celery id. */
  lemma MessageHasId(c: Config, w: World, q: nat, j: JobId)
    requires QueueOk(c, w.store) && SentOk(w.store) && j in w.store.rows
    requires q < |w.store.queue| && w.store.queue[q].msg.job == j
    ensures w.store.rows[j].celeryId == Some(w.store.queue[q].msg.id) && w.store.queue[q].msg.key == w.store.rows[j].key
  {
    assert MessageOk(c, w.store, w.store.queue[q].msg) && RowSent(w.store, j, w.store.rows[j]);
  }

  lemma StillRevoked(c: Config, w: World, e: Event, j: JobId, k: Key)
    requires Sound(c, w, j, k) && IsRevoked(w.store, w.store.rows[j])
    ensures var s := Step(c, w, e).store; j in s.rows && IsRevoked(s, s.rows[j])
  {
    RowStaysCommitted(c, w, e, j);
  }

  /** The broker gets no message of this kind back out of nothing. */
  lemma NoCopiesStep(c: Config, w: World, e: Event, j: JobId, k: Key)
    requires Sound(c, w, j, k) && NoCopies(w, j)
    ensures NoCopies(Step(c, w, e), j)
  {
    var v := Step(c, w, e);
    if Enabled(w, e) {
      match e
      case Api(i, raises) =>
        assert CallOk(c, w.store, w.calls[i]);
        CallCopies(c, w.store, w.calls[i], raises, j);
        forall q | 0 <= q < |v.store.queue| ensures !Copy(v.store.queue[q], j) {
          if q < |w.store.queue| {
            assert v.store.queue[q] == w.store.queue[q];
          }
        }
      case Work(i, x) => NoCopiesWork(c, w, i, x, j);
      case Deliver(q) =>
        assert !Copy(w.store.queue[q], j);
        CopiesGone(w, v, q, j);
      case _ => NoCopiesBroker(c, w, e, j);
    }
  }

  lemma NoCopiesWork(c: Config, w: World, i: nat, x: Choice, j: JobId)
    requires NoCopies(w, j) && Enabled(w, Work(i, x))
    ensures NoCopies(Step(c, w, Work(i, x)), j)
  {
    var d, v := w.deliveries[i], Step(c, w, Work(i, x));
    EffectPublishes(c, w.store, d.msg, d.phase, x);
    assert !Returnable(d, j);
    forall q | 0 <= q < |v.store.queue| ensures !Copy(v.store.queue[q], j) {
      if q < |w.store.queue| {
        assert !Copy(w.store.queue[q], j);
      }
    }
    forall n | 0 <= n < |v.deliveries| ensures !Returnable(v.deliveries[n], j) {
      assert !Returnable(w.deliveries[n], j);
    }
  }

  lemma NoCopiesBroker(c: Config, w: World, e: Event, j: JobId)
    requires NoCopies(w, j) && Enabled(w, e) && (e.Crash? || e.Redeliver? || e.Tick? || e.Open?)
    ensures NoCopies(Step(c, w, e), j)
  {
    var v := Step(c, w, e);
    StepDeliveries(c, w, e);
    forall n | 0 <= n < |v.deliveries| ensures !Returnable(v.deliveries[n], j) {
      assert !Returnable(w.deliveries[n], j);
    }
    forall q | 0 <= q < |v.store.queue| ensures !Copy(v.store.queue[q], j) {
      if q < |w.store.queue| {
        assert !Copy(w.store.queue[q], j);
      } else {
        assert !Returnable(w.deliveries[e.delivery], j);
      }
    }
  }

  lemma NoSinkStep(c: Config, w: World, e: Event, j: JobId, k: Key)
    requires Sound(c, w, j, k) && NoSink(w, j)
    ensures j in Step(c, w, e).store.rows && NoSink(Step(c, w, e), j)
  {
    RowStaysCommitted(c, w, e, j);
    if Enabled(w, e) && e.Deliver? && w.store.queue[e.envelope].msg.job == j {
      MessageHasId(c, w, e.envelope, j);
      assert Copy(w.store.queue[e.envelope], j);
    }
    NoneChecksStep(c, w, e, j);
    if IsRevoked(w.store, w.store.rows[j]) {
      StillRevoked(c, w, e, j, k);
    } else {
      NoCopiesStep(c, w, e, j, k);
    }
  }

  // Nothing foreign comes.

  /** The key of a committed row is never published again for another job. */
  lemma CallPublishesOwn(c: Config, s: Store, call: Call, raises: bool, j: JobId, k: Key)
    requires IndexOk(s) && CallOk(c, s, call) && j in s.rows && s.rows[j].key == k
    ensures var t := CallStep(c, s, call, raises).0;
            || t.queue == s.queue
            || (|t.queue| == |s.queue| + 1 && t.queue[..|s.queue|] == s.queue && t.queue[|s.queue|].msg.key != k)
  {
  }

  lemma NoSourceApi(c: Config, w: World, i: nat, raises: bool, j: JobId, k: Key)
    requires Sound(c, w, j, k) && NoSource(w, j, k) && i < |w.calls|
    ensures NoSource(Step(c, w, Api(i, raises)), j, k)
  {
    var v := Step(c, w, Api(i, raises));
    assert CallOk(c, w.store, w.calls[i]);
    CallPublishesOwn(c, w.store, w.calls[i], raises, j, k);
    forall q | 0 <= q < |v.store.queue| ensures !ForeignCopy(v.store.queue[q], j, k) {
      if q < |w.store.queue| {
        assert v.store.queue[q] == w.store.queue[q] && !ForeignCopy(w.store.queue[q], j, k);
      }
    }
  }

  lemma NoSourceWork(c: Config, w: World, i: nat, x: Choice, j: JobId, k: Key)
    requires NoSource(w, j, k) && Enabled(w, Work(i, x))
    ensures NoSource(Step(c, w, Work(i, x)), j, k)
  {
    var d, v := w.deliveries[i], Step(c, w, Work(i, x));
    EffectPublishes(c, w.store, d.msg, d.phase, x);
    assert !ForeignReturnable(d, j, k);
    forall q | 0 <= q < |v.store.queue| ensures !ForeignCopy(v.store.queue[q], j, k) {
      if q < |w.store.queue| {
        assert !ForeignCopy(w.store.queue[q], j, k);
      }
    }
    forall n | 0 <= n < |v.deliveries| ensures !ForeignReturnable(v.deliveries[n], j, k) {
      assert !ForeignReturnable(w.deliveries[n], j, k);
    }
  }

  lemma NoSourceBroker(c: Config, w: World, e: Event, j: JobId, k: Key)
    requires NoSource(w, j, k) && Enabled(w, e) && !e.Work? && !e.Api?
    ensures NoSource(Step(c, w, e), j, k)
  {
    var v := Step(c, w, e);
    StepDeliveries(c, w, e);
    forall n | 0 <= n < |v.deliveries| ensures !ForeignReturnable(v.deliveries[n], j, k) {
      if n < |w.deliveries| {
        assert !ForeignReturnable(w.deliveries[n], j, k);
      } else {
        assert !ForeignCopy(w.store.queue[e.envelope], j, k);
      }
    }
    forall q | 0 <= q < |v.store.queue| ensures !ForeignCopy(v.store.queue[q], j, k) {
      if q < |w.store.queue| {
        assert !ForeignCopy(w.store.queue[q], j, k);
      } else {
        assert !ForeignReturnable(w.deliveries[e.delivery], j, k);
      }
    }
  }

  lemma NoSourceStep(c: Config, w: World, e: Event, j: JobId, k: Key)
    requires Sound(c, w, j, k) && NoSource(w, j, k)
    ensures NoSource(Step(c, w, e), j, k)
  {
    if Enabled(w, e) {
      if e.Work? {
        NoSourceWork(c, w, e.delivery, e.x, j, k);
      } else if e.Api? {
        NoSourceApi(c, w, e.call, e.raises, j, k);
      } else {
        NoSourceBroker(c, w, e, j, k);
      }
    }
  }

  /** Whoever is at work with the key is a delivery of the job. */
  lemma AtWorkIsOwn(w: World, i: nat, j: JobId, k: Key)
    requires NoSource(w, j, k) && i < |w.deliveries| && Active(w.deliveries[i]) && w.deliveries[i].msg.key == k
    ensures w.deliveries[i].msg.job == j
  {
    assert !ForeignReturnable(w.deliveries[i], j, k);
  }

  /** After a store under the key the entry is the job's own; otherwise it is as it was. */
  lemma EntryStep(c: Config, w: World, e: Event, j: JobId, k: Key)
    requires ResultsOwn(w, j, k) && NoSource(w, j, k)
    ensures var v := Step(c, w, e);
            || (k in v.store.cache && Own(v.deliveries, j, k, v.store.cache[k].value))
            || ((k in v.store.cache <==> k in w.store.cache)
                && (k in w.store.cache ==> v.store.cache[k] == w.store.cache[k]))
  {
    var v := Step(c, w, e);
    StepCache(c, w, e);
    if Enabled(w, e) && e.Work? {
      var d := w.deliveries[e.delivery];
      EffectCache(c, w.store, d.msg, d.phase, e.x);
      if d.phase.Storing? && d.msg.key == k {
        AtWorkIsOwn(w, e.delivery, j, k);
        StepFresh(c, w, e);
        OwnKept(w.deliveries, v.deliveries, j, k, ReturnedValue(d.phase));
      }
    }
  }

  lemma EntryOwnStep(c: Config, w: World, e: Event, j: JobId, k: Key)
    requires Sound(c, w, j, k) && ResultsOwn(w, j, k) && NoSource(w, j, k) && EntryOwn(w, j, k)
    ensures EntryOwn(Step(c, w, e), j, k)
  {
    var v := Step(c, w, e);
    StepInv(c, w, e);
    EntryStep(c, w, e, j, k);
    StepFresh(c, w, e);
    if CheckIdempotency(v.store, k).Some? && !Own(v.deliveries, j, k, v.store.cache[k].value) {
      OwnKept(w.deliveries, v.deliveries, j, k, w.store.cache[k].value);
    }
  }

  // What still checks, checks too late.

  lemma LateWork(c: Config, w: World, i: nat, x: Choice, j: JobId, k: Key)
    requires Enabled(w, Work(i, x)) && k in w.store.cache && AllLate(w, j, w.store.cache[k].expires)
    ensures AllLate(Step(c, w, Work(i, x)), j, w.store.cache[k].expires)
  {
    var d, v := w.deliveries[i], Step(c, w, Work(i, x));
    EffectPublishes(c, w.store, d.msg, d.phase, x);
    assert !Returnable(d, j);
    forall n | 0 <= n < |v.deliveries| ensures !Returnable(v.deliveries[n], j) {
      assert !Returnable(w.deliveries[n], j);
    }
    forall q | 0 <= q < |v.store.queue| && Copy(v.store.queue[q], j)
      ensures w.store.cache[k].expires <= v.store.queue[q].msg.eta
    {
      if q < |w.store.queue| {
        assert Copy(w.store.queue[q], j);
      }
    }
  }

  lemma LateApi(c: Config, w: World, i: nat, raises: bool, j: JobId, k: Key)
    requires Sound(c, w, j, k) && i < |w.calls| && k in w.store.cache && AllLate(w, j, w.store.cache[k].expires)
    ensures AllLate(Step(c, w, Api(i, raises)), j, w.store.cache[k].expires)
  {
    var v := Step(c, w, Api(i, raises));
    assert CallOk(c, w.store, w.calls[i]);
    CallCopies(c, w.store, w.calls[i], raises, j);
    forall q | 0 <= q < |v.store.queue| && Copy(v.store.queue[q], j)
      ensures w.store.cache[k].expires <= v.store.queue[q].msg.eta
    {
      if q < |w.store.queue| {
        assert v.store.queue[q] == w.store.queue[q] && Copy(w.store.queue[q], j);
      }
    }
  }

  lemma LateBroker(c: Config, w: World, e: Event, j: JobId, k: Key)
    requires Enabled(w, e) && !e.Work? && !e.Api? && k in w.store.cache && AllLate(w, j, w.store.cache[k].expires)
    requires e.Deliver? ==> w.store.queue[e.envelope].msg.job != j
    ensures AllLate(Step(c, w, e), j, w.store.cache[k].expires)
  {
    var v := Step(c, w, e);
    StepDeliveries(c, w, e);
    forall n | 0 <= n < |v.deliveries| ensures !Returnable(v.deliveries[n], j) {
      if n < |w.deliveries| {
        assert !Returnable(w.deliveries[n], j);
      }
    }
    forall q | 0 <= q < |v.store.queue| && Copy(v.store.queue[q], j)
      ensures w.store.cache[k].expires <= v.store.queue[q].msg.eta
    {
      if e.Redeliver? {
        assert !Returnable(w.deliveries[e.delivery], j);
      }
      assert Copy(w.store.queue[q], j);
    }
  }

  lemma LateStays(c: Config, w: World, e: Event, j: JobId, k: Key)
    requires Sound(c, w, j, k) && k in w.store.cache && AllLate(w, j, w.store.cache[k].expires)
    requires Enabled(w, e) && e.Deliver? ==> w.store.queue[e.envelope].msg.job != j
    ensures AllLate(Step(c, w, e), j, w.store.cache[k].expires)
  {
    if Enabled(w, e) {
      if e.Work? {
        LateWork(c, w, e.delivery, e.x, j, k);
      } else if e.Api? {
        LateApi(c, w, e.call, e.raises, j, k);
      } else {
        LateBroker(c, w, e, j, k);
      }
    }
  }

  lemma NotDue(w: World, q: nat, j: JobId, k: Key)
    requires k in w.store.cache && AllLate(w, j, w.store.cache[k].expires) && w.store.now < w.store.cache[k].expires
    requires q < |w.store.queue|
    ensures !Copy(w.store.queue[q], j) || w.store.now < w.store.queue[q].msg.eta
  {
  }

  /** While the entry is live, no message of the job is due. */
  lemma NoneDue(w: World, e: Event, j: JobId, k: Key)
    requires k in w.store.cache && AllLate(w, j, w.store.cache[k].expires) && w.store.now < w.store.cache[k].expires
    ensures Enabled(w, e) && e.Deliver? ==> w.store.queue[e.envelope].msg.job != j
  {
    if Enabled(w, e) && e.Deliver? {
      NotDue(w, e.envelope, j, k);
    }
  }

  lemma LateStep(c: Config, w: World, e: Event, j: JobId, k: Key)
    requires Sound(c, w, j, k) && ResultsOwn(w, j, k) && NoSource(w, j, k)
    requires ChecksTooLate(w, j, k) && !EntryOwn(w, j, k)
    ensures j in Step(c, w, e).store.rows
    ensures EntryOwn(Step(c, w, e), j, k) || ChecksTooLate(Step(c, w, e), j, k)
  {
    RowStaysCommitted(c, w, e, j);
    if IsRevoked(w.store, w.store.rows[j]) {
      StillRevoked(c, w, e, j, k);
      if Enabled(w, e) && e.Deliver? && w.store.queue[e.envelope].msg.job == j {
        MessageHasId(c, w, e.envelope, j);
      }
      NoneChecksStep(c, w, e, j);
    } else {
      NoneDue(w, e, j, k);
      NoneChecksStep(c, w, e, j);
      LateStays(c, w, e, j, k);
      EntryStep(c, w, e, j, k);
    }
  }

  // All together.

  lemma SecureStep(c: Config, w: World, e: Event, j: JobId, k: Key)
    requires Sound(c, w, j, k) && Secure(w, j, k)
    ensures j in Step(c, w, e).store.rows && Secure(Step(c, w, e), j, k)
  {
    ResultsStep(c, w, e, j, k);
    if NoSink(w, j) {
      NoSinkStep(c, w, e, j, k);
    } else {
      NoSourceStep(c, w, e, j, k);
      if EntryOwn(w, j, k) {
        RowStaysCommitted(c, w, e, j);
        EntryOwnStep(c, w, e, j, k);
      } else {
        LateStep(c, w, e, j, k);
      }
    }
  }

  lemma {:induction false} SecureForever(c: Config, w: World, fs: seq<Event>, j: JobId, k: Key)
    requires Sound(c, w, j, k) && Secure(w, j, k)
    ensures ResultsOwn(Continue(c, w, fs), j, k)
    decreases |fs|
  {
    if fs != [] {
      SoundStep(c, w, fs[0], j, k);
      SecureStep(c, w, fs[0], j, k);
      SecureForever(c, Step(c, w, fs[0]), fs[1..], j, k);
    }
  }

  // ---------------------------------------------------------------------------
  // What is not secure can be contaminated
  // ---------------------------------------------------------------------------

  const ANY := Choice(true, true, OtherError)

  /** A value that no delivery has returned. */
  lemma {:induction false} NewValue(ds: seq<Delivery>) returns (n: nat)
    ensures forall i, m: nat :: 0 <= i < |ds| && HasReturned(ds[i].phase) && n <= m ==>
              ReturnedValue(ds[i].phase) != Json(m)
  {
    if ds == [] {
      n := 0;
    } else {
      n := NewValue(ds[..|ds| - 1]);
      var p := ds[|ds| - 1].phase;
      if HasReturned(p) && ReturnedValue(p).Json? && n <= ReturnedValue(p).text {
        n := ReturnedValue(p).text + 1;
      }
    }
  }

  /** A delivery about to check, with a live entry to find: it returns the entry's value. */
  lemma HitActs(c: Config, w: World, i: nat, j: JobId, k: Key, v: Value) returns (fs: seq<Event>)
    requires Sound(c, w, j, k) && i < |w.deliveries| && AboutToCheck(w.deliveries[i], j)
    requires CheckIdempotency(w.store, k) == Some(v) && !Own(w.deliveries, j, k, v)
    ensures !ResultsOwn(Continue(c, w, fs), j, k)
  {
    JobHasKey(c, w, i, j, k);
    var e, d := Work(i, ANY), w.deliveries[i];
    var u := Step(c, w, e);
    if d.phase.Checking? {
      fs := [e];
      LastEvent(c, w, e);
      HitIsForeign(w, u, i, d.(phase := Completing(v, true)), j, k, v);
    } else {
      fs := [e, e] + [];
      TwoEvents(c, w, e, e, []);
      var n := u.deliveries[i];
      assert n.msg == d.msg && n.phase.Checking? && Active(n);
      assert u.store.cache == w.store.cache && u.store.now == w.store.now;
      var x := Step(c, u, e);
      assert x.deliveries == w.deliveries[i := n.(phase := Completing(v, true))];
      HitIsForeign(w, x, i, n.(phase := Completing(v, true)), j, k, v);
    }
  }

  lemma HitIsForeign(w: World, u: World, i: nat, n: Delivery, j: JobId, k: Key, v: Value)
    requires i < |w.deliveries| && u.deliveries == w.deliveries[i := n] && n.msg.job == j
    requires n.phase == Completing(v, true) && !Own(w.deliveries, j, k, v)
    ensures !ResultsOwn(u, j, k)
  {
    assert u.deliveries[i] == n && HasReturned(n.phase) && ReturnedValue(n.phase) == v;
    forall m | 0 <= m < |u.deliveries|
      ensures OwnProducer(u.deliveries[m], j, k, v) ==> OwnProducer(w.deliveries[m], j, k, v)
    {
    }
    NotYetOwn(w.deliveries, u.deliveries, j, k, v);
  }

  predicate OwnProducer(d: Delivery, j: JobId, k: Key, v: Value)
  {
    d.msg.job == j && Producer(d, k, v)
  }

  /** Deliveries that produced nothing of the job's make nothing its own. */
  lemma NotYetOwn(ds: seq<Delivery>, fs: seq<Delivery>, j: JobId, k: Key, v: Value)
    requires |ds| <= |fs|
    requires forall m :: 0 <= m < |ds| ==> OwnProducer(fs[m], j, k, v) ==> OwnProducer(ds[m], j, k, v)
    requires forall m :: |ds| <= m < |fs| ==> !OwnProducer(fs[m], j, k, v)
    ensures Own(fs, j, k, v) ==> Own(ds, j, k, v)
  {
    if Own(fs, j, k, v) {
      var m :| 0 <= m < |fs| && fs[m].msg.job == j && Producer(fs[m], k, v);
      assert OwnProducer(fs[m], j, k, v);
    }
  }

  /** From `w` to `u`: a delivery is about to check, and nothing else that matters has changed. */
  ghost predicate Readied(w: World, u: World, i: nat, j: JobId, k: Key, v: Value)
  {
    && i < |u.deliveries| && AboutToCheck(u.deliveries[i], j)
    && u.store.cache == w.store.cache
    && (!NoSource(w, j, k) ==> !NoSource(u, j, k))
    && (Own(u.deliveries, j, k, v) ==> Own(w.deliveries, j, k, v))
  }

  /** Events of the broker produce no value. */
  lemma BrokerMakesNothing(c: Config, w: World, e: Event, j: JobId, k: Key, v: Value)
    requires Enabled(w, e) && !e.Work?
    ensures Own(Step(c, w, e).deliveries, j, k, v) ==> Own(w.deliveries, j, k, v)
  {
    StepDeliveries(c, w, e);
    var fs := DeliveriesAfter(w, e);
    forall m | 0 <= m < |w.deliveries|
      ensures OwnProducer(fs[m], j, k, v) ==> OwnProducer(w.deliveries[m], j, k, v)
    {
      OnlyLife(w, e, m);
    }
    NotYetOwn(w.deliveries, fs, j, k, v);
  }

  /** Foreign messages stay with the broker while others are delivered or put back. */
  lemma SourceStays(c: Config, w: World, e: Event, j: JobId, k: Key)
    requires !NoSource(w, j, k) && Enabled(w, e)
    requires e.Tick? || (e.Deliver? && w.store.queue[e.envelope].msg.job == j)
          || (e.Redeliver? && w.deliveries[e.delivery].msg.job == j)
    ensures !NoSource(Step(c, w, e), j, k)
  {
    var u := Step(c, w, e);
    if q :| 0 <= q < |w.store.queue| && ForeignCopy(w.store.queue[q], j, k) {
      assert u.store.queue[q] == w.store.queue[q];
      assert ForeignCopy(u.store.queue[q], j, k);
    } else {
      var i :| 0 <= i < |w.deliveries| && ForeignReturnable(w.deliveries[i], j, k);
      assert u.deliveries[i] == w.deliveries[i];
      assert ForeignReturnable(u.deliveries[i], j, k);
    }
  }

  /** A waiting message of the job, not revoked, is delivered as soon as it is due. */
  lemma SinkFromCopy(c: Config, w: World, q: nat, j: JobId, k: Key, v: Value) returns (fs: seq<Event>)
    requires Sound(c, w, j, k) && !IsRevoked(w.store, w.store.rows[j])
    requires q < |w.store.queue| && Copy(w.store.queue[q], j)
    ensures var u := Continue(c, w, fs);
            && Sound(c, u, j, k) && Readied(w, u, |w.deliveries|, j, k, v)
            && u.store.now == w.store.now + UntilDue(w.store, w.store.queue[q].msg)
  {
    var wait, take := Tick(UntilDue(w.store, w.store.queue[q].msg)), Deliver(q);
    fs := [wait, take] + [];
    TwoEvents(c, w, wait, take, []);
    var t := Step(c, w, wait);
    CopyStarts(c, w, q, j);
    SoundStep(c, w, wait, j, k);
    SoundStep(c, t, take, j, k);
    BrokerMakesNothing(c, w, wait, j, k, v);
    BrokerMakesNothing(c, t, take, j, k, v);
    if !NoSource(w, j, k) {
      SourceStays(c, w, wait, j, k);
      SourceStays(c, t, take, j, k);
    }
  }

  /** An unacknowledged message of the job comes back. */
  lemma PutBackSink(c: Config, w: World, n: nat, j: JobId, k: Key, v: Value)
    requires Sound(c, w, j, k) && n < |w.deliveries| && Returnable(w.deliveries[n], j)
    ensures var u := Step(c, w, Redeliver(n)); var q := |w.store.queue|;
            && Sound(c, u, j, k) && u.store.rows == w.store.rows && u.store.revoked == w.store.revoked
            && |u.store.queue| == q + 1 && Copy(u.store.queue[q], j) && u.store.queue[q].msg.eta <= u.store.now
            && u.store.cache == w.store.cache && u.store.now == w.store.now
            && (!NoSource(w, j, k) ==> !NoSource(u, j, k))
            && (Own(u.deliveries, j, k, v) ==> Own(w.deliveries, j, k, v))
  {
    SoundStep(c, w, Redeliver(n), j, k);
    BrokerMakesNothing(c, w, Redeliver(n), j, k, v);
    if !NoSource(w, j, k) {
      SourceStays(c, w, Redeliver(n), j, k);
    }
  }

  /** It is delivered at once. */
  lemma SinkFromReturnable(c: Config, w: World, n: nat, j: JobId, k: Key, v: Value) returns (fs: seq<Event>, i: nat)
    requires Sound(c, w, j, k) && !IsRevoked(w.store, w.store.rows[j])
    requires n < |w.deliveries| && Returnable(w.deliveries[n], j)
    ensures var u := Continue(c, w, fs);
            Sound(c, u, j, k) && Readied(w, u, i, j, k, v) && u.store.now == w.store.now
  {
    PutBackSink(c, w, n, j, k, v);
    var u := Step(c, w, Redeliver(n));
    var gs := SinkFromCopy(c, u, |w.store.queue|, j, k, v);
    fs, i := [Redeliver(n)] + gs, |u.deliveries|;
    FirstEvent(c, w, Redeliver(n), gs);
  }

  lemma FirstEvent(c: Config, w: World, e: Event, gs: seq<Event>)
    ensures Continue(c, w, [e] + gs) == Continue(c, Step(c, w, e), gs)
  {
    assert ([e] + gs)[1..] == gs;
  }

  /** Something of the job can still check: it is brought there. */
  lemma SinkActs(c: Config, w: World, j: JobId, k: Key, v: Value) returns (fs: seq<Event>, i: nat)
    requires Sound(c, w, j, k) && !NoSink(w, j)
    ensures var u := Continue(c, w, fs); Sound(c, u, j, k) && Readied(w, u, i, j, k, v)
  {
    if n :| 0 <= n < |w.deliveries| && AboutToCheck(w.deliveries[n], j) {
      fs, i := [], n;
    } else if n :| 0 <= n < |w.deliveries| && Returnable(w.deliveries[n], j) {
      fs, i := SinkFromReturnable(c, w, n, j, k, v);
    } else {
      var q :| 0 <= q < |w.store.queue| && Copy(w.store.queue[q], j);
      fs := SinkFromCopy(c, w, q, j, k, v);
      i := |w.deliveries|;
    }
  }

  /** Something of the job can still check while the entry is live: it is brought there in time. */
  lemma EarlySinkActs(c: Config, w: World, j: JobId, k: Key, v: Value) returns (fs: seq<Event>, i: nat)
    requires Sound(c, w, j, k) && CheckIdempotency(w.store, k) == Some(v) && !ChecksTooLate(w, j, k)
    ensures var u := Continue(c, w, fs);
            Sound(c, u, j, k) && Readied(w, u, i, j, k, v) && CheckIdempotency(u.store, k) == Some(v)
  {
    if n :| 0 <= n < |w.deliveries| && AboutToCheck(w.deliveries[n], j) {
      fs, i := [], n;
    } else if n :| 0 <= n < |w.deliveries| && Returnable(w.deliveries[n], j) {
      fs, i := SinkFromReturnable(c, w, n, j, k, v);
    } else {
      var q :| 0 <= q < |w.store.queue| && Copy(w.store.queue[q], j)
            && w.store.queue[q].msg.eta < w.store.cache[k].expires;
      fs := SinkFromCopy(c, w, q, j, k, v);
      i := |w.deliveries|;
    }
  }

  // The foreign message runs.

  /** Where the foreign attempt leaves the world: the key is cached with `v`. */
  ghost predicate Cached(w: World, u: World, i: nat, j: JobId, k: Key, v: Value)
  {
    && i < |w.deliveries| && i < |u.deliveries| && u.deliveries[i] == w.deliveries[i]
    && CheckIdempotency(u.store, k) == Some(v)
    && (Own(u.deliveries, j, k, v) ==> Own(w.deliveries, j, k, v))
  }

  /** Time after which a message is due and the key's entry has expired. */
  function UntilClear(s: Store, m: Message): real
  {
    UntilDue(s, m) + UntilExpiry(s, m.key)
  }

  /** A foreign attempt with nothing in its way executes and stores its result. */
  lemma ForeignWorks(c: Config, w: World, n: nat, i: nat, j: JobId, k: Key, v: Value) returns (fs: seq<Event>)
    requires n < |w.deliveries| && Active(w.deliveries[n]) && w.deliveries[n].phase.Starting?
    requires w.deliveries[n].msg.key == k && w.deliveries[n].msg.job != j && i < |w.deliveries| && i != n
    requires CheckIdempotency(w.store, k) == None && c.resultTtl > 0
    ensures Cached(w, Continue(c, w, fs), i, j, k, v)
  {
    var xs, d := Returning(v), w.deliveries[n];
    fs := Works(n, xs, 0);
    WorksAreWork(c, w, n, xs, 0);
    TraceIsWork(c, w.store, d, xs);
    Misses(c, w.store, d.msg, v);
    WorkKeepsMessage(c, w.store, d, xs, 0);
    var u := Continue(c, w, fs);
    forall m | 0 <= m < |w.deliveries|
      ensures OwnProducer(u.deliveries[m], j, k, v) ==> OwnProducer(w.deliveries[m], j, k, v)
    {
    }
    NotYetOwn(w.deliveries, u.deliveries, j, k, v);
  }

  lemma ForeignFromCopy(c: Config, w: World, q: nat, i: nat, j: JobId, k: Key, v: Value) returns (fs: seq<Event>)
    requires Sound(c, w, j, k) && q < |w.store.queue| && ForeignCopy(w.store.queue[q], j, k) && i < |w.deliveries|
    requires c.resultTtl > 0
    ensures Cached(w, Continue(c, w, fs), i, j, k, v)
  {
    var m := w.store.queue[q].msg;
    var wait, take := Tick(UntilClear(w.store, m)), Deliver(q);
    var t := Step(c, w, wait);
    var u := Step(c, t, take);
    assert MessageOk(c, w.store, m);
    ForeignNotRevoked(c, w, m, j, k);
    BrokerMakesNothing(c, w, wait, j, k, v);
    BrokerMakesNothing(c, t, take, j, k, v);
    var gs := ForeignWorks(c, u, |w.deliveries|, i, j, k, v);
    fs := [wait, take] + gs;
    TwoEvents(c, w, wait, take, gs);
  }

  /** A foreign message that was not acknowledged comes back. */
  lemma PutBackSource(c: Config, w: World, n: nat, i: nat, j: JobId, k: Key, v: Value)
    requires Sound(c, w, j, k) && n < |w.deliveries| && ForeignReturnable(w.deliveries[n], j, k)
    requires i < |w.deliveries| && AboutToCheck(w.deliveries[i], j)
    ensures var u := Step(c, w, Redeliver(n)); var q := |w.store.queue|;
            && Sound(c, u, j, k) && |u.store.queue| == q + 1 && ForeignCopy(u.store.queue[q], j, k)
            && |u.deliveries| == |w.deliveries| && u.deliveries[i] == w.deliveries[i]
            && (Own(u.deliveries, j, k, v) ==> Own(w.deliveries, j, k, v))
  {
    SoundStep(c, w, Redeliver(n), j, k);
    BrokerMakesNothing(c, w, Redeliver(n), j, k, v);
  }

  lemma SourceActs(c: Config, w: World, i: nat, j: JobId, k: Key, v: Value) returns (fs: seq<Event>)
    requires Sound(c, w, j, k) && !NoSource(w, j, k) && c.resultTtl > 0
    requires i < |w.deliveries| && AboutToCheck(w.deliveries[i], j)
    ensures Cached(w, Continue(c, w, fs), i, j, k, v)
  {
    if q :| 0 <= q < |w.store.queue| && ForeignCopy(w.store.queue[q], j, k) {
      fs := ForeignFromCopy(c, w, q, i, j, k, v);
    } else {
      var n :| 0 <= n < |w.deliveries| && ForeignReturnable(w.deliveries[n], j, k);
      PutBackSource(c, w, n, i, j, k, v);
      var gs := ForeignFromCopy(c, Step(c, w, Redeliver(n)), |w.store.queue|, i, j, k, v);
      fs := [Redeliver(n)] + gs;
      FirstEvent(c, w, Redeliver(n), gs);
    }
  }

  // Both together.

  lemma SourceAndSinkAct(c: Config, w: World, j: JobId, k: Key) returns (fs: seq<Event>)
    requires Sound(c, w, j, k) && !NoSink(w, j) && !NoSource(w, j, k) && c.resultTtl > 0
    ensures !ResultsOwn(Continue(c, w, fs), j, k)
  {
    var n := NewValue(w.deliveries);
    var v := Json(n);
    var fs1, i := SinkActs(c, w, j, k, v);
    var u := Continue(c, w, fs1);
    var fs2 := SourceActs(c, u, i, j, k, v);
    var x := Continue(c, u, fs2);
    SoundForever(c, u, fs2, j, k);
    var fs3 := HitActs(c, x, i, j, k, v);
    fs := fs1 + (fs2 + fs3);
    ContinueMore(c, w, fs1, fs2 + fs3);
    ContinueMore(c, u, fs2, fs3);
  }

  lemma {:induction false} SoundForever(c: Config, w: World, fs: seq<Event>, j: JobId, k: Key)
    requires Sound(c, w, j, k)
    ensures Sound(c, Continue(c, w, fs), j, k)
    decreases |fs|
  {
    if fs != [] {
      SoundStep(c, w, fs[0], j, k);
      SoundForever(c, Step(c, w, fs[0]), fs[1..], j, k);
    }
  }

  lemma EntryAndSinkAct(c: Config, w: World, j: JobId, k: Key) returns (fs: seq<Event>)
    requires Sound(c, w, j, k) && !EntryOwn(w, j, k) && !ChecksTooLate(w, j, k)
    ensures !ResultsOwn(Continue(c, w, fs), j, k)
  {
    var v := w.store.cache[k].value;
    var fs1, i := EarlySinkActs(c, w, j, k, v);
    var fs2 := HitActs(c, Continue(c, w, fs1), i, j, k, v);
    fs := fs1 + fs2;
    ContinueMore(c, w, fs1, fs2);
  }

  /** A job that is not secure returns a foreign value in some continuation. */
  lemma InsecureActs(c: Config, w: World, j: JobId, k: Key) returns (fs: seq<Event>)
    requires Sound(c, w, j, k) && !Secure(w, j, k) && c.resultTtl > 0
    ensures !ResultsOwn(Continue(c, w, fs), j, k)
  {
    if !ResultsOwn(w, j, k) {
      fs := [];
    } else if !NoSource(w, j, k) {
      fs := SourceAndSinkAct(c, w, j, k);
    } else {
      fs := EntryAndSinkAct(c, w, j, k);
    }
  }

  ghost predicate OwnAfter(c: Config, es: seq<Event>, fs: seq<Event>, j: JobId, k: Key)
  {
    ResultsOwn(Run(c, es + fs), j, k)
  }

  /**
   A committed job returns only values that its own execute() calls produced, in every continuation,
   exactly when it is secure: its results so far are its own, and either none of its deliveries will
   check the cache again, or the broker holds no other job's message with the key and a check finds
   the job's own entry or comes too late for a foreign one.
   */
  lemma ResultsStayOwnIff(c: Config, es: seq<Event>, j: JobId, k: Key)
    requires c.resultTtl > 0
    requires j in Run(c, es).store.rows && Run(c, es).store.rows[j].key == k
    ensures (forall fs :: OwnAfter(c, es, fs, j, k)) <==> Secure(Run(c, es), j, k)
  {
    RunSound(c, es);
    if Secure(Run(c, es), j, k) {
      forall fs ensures OwnAfter(c, es, fs, j, k) {
        RunContinues(c, es, fs);
        SecureForever(c, Run(c, es), fs, j, k);
      }
    } else {
      var fs := InsecureActs(c, Run(c, es), j, k);
      RunContinues(c, es, fs);
      assert !OwnAfter(c, es, fs, j, k);
    }
  }
}
