/**
 "DB failure must not mask task status": two continuations of one run with the same requests,
 deliveries, outcomes, crashes and broker behaviour, but with arbitrarily different failures of the
 workers' database writes, cannot be told apart except by the status columns of the rows.
 */
module DbIndependence {
  import opened JobModel
  import opened Protocol
  import opened ApiInvariant
  import opened JobStatusHistory

  /** The same event, but for whether the worker's UPDATE went through. */
  predicate SameButDb(a: Event, b: Event)
  {
    if a.Work? && b.Work? then a.delivery == b.delivery && a.x.dlqOk == b.x.dlqOk && a.x.outcome == b.x.outcome
    else a == b
  }

  /** The event reads no status: the first step of a cancel or a DLQ retry does, nothing else. */
  predicate StatusBlind(w: World, e: Event)
  {
    e.Api? && e.call < |w.calls| && w.calls[e.call].phase.Opened? ==> w.calls[e.call].request.Create?
  }

  /** Two continuations of `ps` that differ only in which worker writes fail, and read no status. */
  ghost predicate SameSchedule(c: Config, ps: seq<Event>, es: seq<Event>, fs: seq<Event>)
  {
    && |es| == |fs|
    && (forall n :: 0 <= n < |es| ==> SameButDb(es[n], fs[n]))
    && (forall n :: 0 <= n < |es| ==> StatusBlind(Run(c, ps + es[..n]), es[n]))
  }

  function Blank(s: Store): Store
  {
    s.(rows := map[])
  }

  /** Equal stores, except for the status, execution_count and result of the rows. */
  ghost predicate SameStore(s: Store, t: Store)
  {
    && Blank(s) == Blank(t)
    && s.rows.Keys == t.rows.Keys
    && (forall j :: j in s.rows ==> SameFixed(s.rows[j], t.rows[j]))
  }

  predicate SameDelivery(d: Delivery, f: Delivery)
  {
    d == f.(counted := d.counted)
  }

  ghost predicate Indistinguishable(w: World, v: World)
  {
    && SameStore(w.store, v.store)
    && w.calls == v.calls
    && |w.deliveries| == |v.deliveries|
    && (forall i :: 0 <= i < |w.deliveries| ==> SameDelivery(w.deliveries[i], v.deliveries[i]))
  }

  lemma UpdateBlank(s: Store, job: JobId, status: Status, result: Value, increment: bool, ok: bool)
    ensures var t := UpdateJobStatus(s, job, status, result, increment, ok);
            && Blank(t) == Blank(s) && t.rows.Keys == s.rows.Keys
            && (forall j :: j in s.rows ==> SameFixed(s.rows[j], t.rows[j]))
  {
  }

  /** An effect on a store without rows. */
  lemma EffectBlank(c: Config, s: Store, msg: Message, p: Phase, x: Choice)
    ensures Blank(Effect(c, s, msg, p, x)) == Blank(Effect(c, Blank(s), msg, p, x.(dbOk := false)))
  {
    match p
    case Starting => UpdateBlank(s, msg.job, RUNNING, Null, true, x.dbOk);
    case Completing(v, _) => UpdateBlank(s, msg.job, COMPLETED, v, false, x.dbOk);
    case WritingFailed(_) => UpdateBlank(s, msg.job, FAILED, Null, false, x.dbOk);
    case WritingDlq(_) => UpdateBlank(s, msg.job, DLQ, Null, false, x.dbOk);
    case _ =>
  }

  lemma EffectSame(c: Config, s: Store, t: Store, msg: Message, p: Phase, x: Choice, y: Choice)
    requires SameStore(s, t) && x.dlqOk == y.dlqOk && x.outcome == y.outcome
    ensures SameStore(Effect(c, s, msg, p, x), Effect(c, t, msg, p, y))
  {
    EffectBlank(c, s, msg, p, x);
    EffectBlank(c, t, msg, p, y);
    assert x.(dbOk := false) == y.(dbOk := false);
    EffectFrame(c, s, msg, p, x);
    EffectFrame(c, t, msg, p, y);
  }

  lemma WorkSame(c: Config, w: World, v: World, i: nat, x: Choice, y: Choice)
    requires Indistinguishable(w, v) && x.dlqOk == y.dlqOk && x.outcome == y.outcome
    ensures Indistinguishable(Step(c, w, Work(i, x)), Step(c, v, Work(i, y)))
  {
    if Enabled(w, Work(i, x)) {
      var d, f := w.deliveries[i], v.deliveries[i];
      assert SameDelivery(d, f);
      EffectSame(c, w.store, v.store, d.msg, d.phase, x, y);
      assert w.store.cache == v.store.cache && w.store.now == v.store.now by {
        assert Blank(w.store).cache == Blank(v.store).cache && Blank(w.store).now == Blank(v.store).now;
      }
      assert SameDelivery(Advance(c, w.store, d, x), Advance(c, v.store, f, y));
    }
  }

  lemma FieldsSame(s: Store, t: Store)
    requires SameStore(s, t)
    ensures s.pending == t.pending && s.index == t.index && s.queue == t.queue && s.sent == t.sent
    ensures s.revoked == t.revoked && s.dlq == t.dlq && s.cache == t.cache && s.jobsTotal == t.jobsTotal
    ensures s.dlqSize == t.dlqSize && s.uuids == t.uuids && s.now == t.now
  {
    assert Blank(s) == Blank(t);
  }

  lemma FlushSame(s: Store, t: Store, id: JobId, row: Row, drawn: nat, here: CallPhase)
    requires SameStore(s, t)
    ensures SameStore(Flush(s, id, row, drawn, here).0, Flush(t, id, row, drawn, here).0)
    ensures Flush(s, id, row, drawn, here).1 == Flush(t, id, row, drawn, here).1
  {
    FieldsSame(s, t);
    if row.key in s.index {
      assert s.index[row.key] in s.rows <==> s.index[row.key] in t.rows;
    }
  }

  lemma RaisesSame(s: Store, t: Store, call: Call)
    requires SameStore(s, t)
    ensures SameStore(CallRaises(s, call).0, CallRaises(t, call).0)
    ensures CallRaises(s, call).1 == CallRaises(t, call).1
  {
    FieldsSame(s, t);
  }

  lemma WritesSame(c: Config, s: Store, t: Store, call: Call)
    requires SameStore(s, t) && (call.phase.Flushed? || call.phase.Sent?)
    ensures SameStore(CallProceeds(c, s, call).0, CallProceeds(c, t, call).0)
    ensures CallProceeds(c, s, call).1 == CallProceeds(c, t, call).1
  {
    FieldsSame(s, t);
  }

  lemma LookSame(c: Config, s: Store, t: Store, r: Request)
    requires SameStore(s, t) && r.Create?
    ensures Look(c, s, r) == Look(c, t, r)
  {
    FieldsSame(s, t);
    if r.key in s.index {
      assert s.index[r.key] in s.rows <==> s.index[r.key] in t.rows;
    }
  }

  lemma RestSame(c: Config, s: Store, t: Store, call: Call)
    requires SameStore(s, t)
    requires !call.phase.Opened? && !call.phase.Absent? && !call.phase.Original?
    requires !call.phase.Flushed? && !call.phase.Sent?
    ensures SameStore(CallProceeds(c, s, call).0, CallProceeds(c, t, call).0)
    ensures CallProceeds(c, s, call).1 == CallProceeds(c, t, call).1
  {
    FieldsSame(s, t);
    if call.phase.Revoking? && call.request.Cancel? {
      SetCancelledSame(s, t, call.request.job);
    }
  }

  lemma SetCancelledSame(s: Store, t: Store, job: JobId)
    requires SameStore(s, t)
    ensures SameStore(SetCancelled(s, job), SetCancelled(t, job))
  {
    SetCancelledFrame(s, job);
    SetCancelledFrame(t, job);
    assert Blank(SetCancelled(s, job)) == Blank(s) && Blank(SetCancelled(t, job)) == Blank(t);
  }

  lemma InsertSame(c: Config, s: Store, t: Store, call: Call)
    requires SameStore(s, t) && (call.phase.Absent? || call.phase.Original?)
    ensures SameStore(CallProceeds(c, s, call).0, CallProceeds(c, t, call).0)
    ensures CallProceeds(c, s, call).1 == CallProceeds(c, t, call).1
  {
    var r := call.request;
    FieldsSame(s, t);
    if call.phase.Absent? && r.Create? {
      FlushSame(s, t, s.uuids, NewRow(r.task, r.payload, r.key, 0, None), 1, Absent);
    } else if call.phase.Original? && r.RetryDlq? {
      OriginalProceeds(c, s, call);
      OriginalProceeds(c, t, call);
      var row := call.phase.row;
      FlushSame(s, t, s.uuids + 1, NewRow(row.task, row.payload, DlqRetry(s.uuids), row.retryCount + 1, Some(r.job)),
                2, call.phase);
    }
  }

  lemma CallSame(c: Config, s: Store, t: Store, call: Call, raises: bool)
    requires SameStore(s, t) && (call.phase.Opened? ==> call.request.Create?)
    ensures SameStore(CallStep(c, s, call, raises).0, CallStep(c, t, call, raises).0)
    ensures CallStep(c, s, call, raises).1 == CallStep(c, t, call, raises).1
  {
    var r := call.request;
    if raises {
      RaisesSame(s, t, call);
    } else if call.phase.Opened? {
      LookSame(c, s, t, r);
    } else if call.phase.Absent? || call.phase.Original? {
      InsertSame(c, s, t, call);
    } else if call.phase.Flushed? || call.phase.Sent? {
      WritesSame(c, s, t, call);
    } else {
      RestSame(c, s, t, call);
    }
  }

  lemma ApiSame(c: Config, w: World, v: World, i: nat, raises: bool)
    requires Indistinguishable(w, v) && StatusBlind(w, Api(i, raises))
    ensures Indistinguishable(Step(c, w, Api(i, raises)), Step(c, v, Api(i, raises)))
  {
    if i < |w.calls| {
      CallSame(c, w.store, v.store, w.calls[i], raises);
    }
  }

  lemma BrokerSame(c: Config, w: World, v: World, e: Event)
    requires Indistinguishable(w, v) && !e.Work? && !e.Api?
    ensures Indistinguishable(Step(c, w, e), Step(c, v, e))
  {
    FieldsSame(w.store, v.store);
    if Enabled(w, e) {
      if e.Crash? || e.Redeliver? {
        assert SameDelivery(w.deliveries[e.delivery], v.deliveries[e.delivery]);
      }
      StepDeliveries(c, w, e);
      StepDeliveries(c, v, e);
      SameAfter(w, v, e);
    } else if e.Crash? || e.Redeliver? {
      assert e.delivery < |w.deliveries| ==> SameDelivery(w.deliveries[e.delivery], v.deliveries[e.delivery]);
    }
  }

  lemma SameAfter(w: World, v: World, e: Event)
    requires Indistinguishable(w, v) && !e.Work? && !e.Api? && Enabled(w, e) && Enabled(v, e)
    ensures var ds, fs := DeliveriesAfter(w, e), DeliveriesAfter(v, e);
            |ds| == |fs| && forall i :: 0 <= i < |ds| ==> SameDelivery(ds[i], fs[i])
  {
    FieldsSame(w.store, v.store);
    var ds, fs := DeliveriesAfter(w, e), DeliveriesAfter(v, e);
    forall i | 0 <= i < |ds| ensures SameDelivery(ds[i], fs[i]) {
      if i < |w.deliveries| {
        assert SameDelivery(w.deliveries[i], v.deliveries[i]);
      }
    }
  }

  lemma SameBefore(c: Config, ps: seq<Event>, es: seq<Event>, fs: seq<Event>)
    requires SameSchedule(c, ps, es, fs) && es != []
    ensures SameSchedule(c, ps, es[..|es| - 1], fs[..|es| - 1])
    ensures SameButDb(es[|es| - 1], fs[|es| - 1]) && StatusBlind(Run(c, ps + es[..|es| - 1]), es[|es| - 1])
  {
    var gs := es[..|es| - 1];
    forall n | 0 <= n < |gs| ensures StatusBlind(Run(c, ps + gs[..n]), gs[n]) {
      assert gs[..n] == es[..n];
    }
  }

  lemma {:induction false} RunsIndistinguishable(c: Config, ps: seq<Event>, es: seq<Event>, fs: seq<Event>)
    requires SameSchedule(c, ps, es, fs)
    ensures Indistinguishable(Run(c, ps + es), Run(c, ps + fs))
  {
    RunMore(c, ps, es);
    RunMore(c, ps, fs);
    if es != [] {
      var n := |es| - 1;
      SameBefore(c, ps, es, fs);
      RunsIndistinguishable(c, ps, es[..n], fs[..n]);
      StepSame(c, Run(c, ps + es[..n]), Run(c, ps + fs[..n]), es[n], fs[n]);
    }
  }

  lemma StepSame(c: Config, w: World, v: World, e: Event, f: Event)
    requires Indistinguishable(w, v) && SameButDb(e, f) && StatusBlind(w, e)
    ensures Indistinguishable(Step(c, w, e), Step(c, v, f))
  {
    match e
    case Work(i, x) => WorkSame(c, w, v, i, x, f.x);
    case Api(i, raises) => ApiSame(c, w, v, i, raises);
    case _ => BrokerSame(c, w, v, e);
  }

  /**
   After any common history, whatever worker writes fail in either continuation, both publish the
   same messages with the same retry numbers and ETAs, send the same DLQ messages, leave the same
   cache and metrics, answer every call alike, and every delivery ends with the same return value
   or failure.
   */
  lemma DbFailuresInvisible(c: Config, ps: seq<Event>, es: seq<Event>, fs: seq<Event>)
    requires SameSchedule(c, ps, es, fs)
    ensures var w, v := Run(c, ps + es), Run(c, ps + fs);
            && w.store.queue == v.store.queue && w.store.dlq == v.store.dlq && w.store.cache == v.store.cache
            && w.store.jobsTotal == v.store.jobsTotal && w.store.dlqSize == v.store.dlqSize
            && w.calls == v.calls
            && |w.deliveries| == |v.deliveries|
            && forall i :: 0 <= i < |w.deliveries| ==>
                 w.deliveries[i].phase == v.deliveries[i].phase && w.deliveries[i].msg == v.deliveries[i].msg
  {
    RunsIndistinguishable(c, ps, es, fs);
    var w, v := Run(c, ps + es), Run(c, ps + fs);
    FieldsSame(w.store, v.store);
    forall i | 0 <= i < |w.deliveries|
      ensures w.deliveries[i].phase == v.deliveries[i].phase && w.deliveries[i].msg == v.deliveries[i].msg
    {
      assert SameDelivery(w.deliveries[i], v.deliveries[i]);
    }
  }
}
