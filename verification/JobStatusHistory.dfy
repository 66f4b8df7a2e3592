/**
 What a row's status and execution_count prove about the past, under every interleaving, crash
 and database failure.
 */
module JobStatusHistory {
  import opened JobModel
  import opened Protocol
  import opened ApiInvariant
  import opened CreateRace
  import opened Attempts
  import opened Sums

  // ---------------------------------------------------------------------------
  // Deliveries only move forward
  // ---------------------------------------------------------------------------

  /** run() has returned a value. */
  predicate HasReturned(p: Phase)
  {
    p.Completing? || p.Counting? || p.Storing? || ((p.Acking? || p.Finished?) && p.end.Returned?)
  }

  predicate PastDlqSend(p: Phase)
  {
    p.WritingFailed? || p.WritingDlq? || p.CountingFailed? || p.Gauging?
  }

  /** A DLQ send of the delivery lies behind this phase. */
  predicate TriedDlq(p: Phase)
  {
    PastDlqSend(p) || p == DlqSending(CeleryCall) || ((p.Acking? || p.Finished?) && p.end.Raised?)
  }

  /** What the history fields of a delivery mean. */
  predicate HistoryOk(d: Delivery)
  {
    && (d.phase.Starting? || d.phase.Discarded? ==> !d.counted)
    && (d.tried <==> TriedDlq(d.phase))
  }

  predicate Later(a: Delivery, b: Delivery)
  {
    && b.msg == a.msg && b.start == a.start
    && (HasReturned(a.phase) ==> HasReturned(b.phase))
    && (a.counted ==> b.counted)
    && (a.tried ==> b.tried)
    && (Attempt(a) <==> Attempt(b))
  }

  lemma AdvanceLater(c: Config, s: Store, d: Delivery, x: Choice)
    requires Active(d) && HistoryOk(d)
    ensures Later(d, Advance(c, s, d, x)) && HistoryOk(Advance(c, s, d, x))
  {
  }

  ghost predicate HistoriesOk(w: World)
  {
    forall i :: 0 <= i < |w.deliveries| ==> HistoryOk(w.deliveries[i])
  }

  lemma DeliveriesAdvance(c: Config, w: World, e: Event)
    requires HistoriesOk(w)
    ensures var v := Step(c, w, e);
            && HistoriesOk(v)
            && |w.deliveries| <= |v.deliveries|
            && (forall i :: 0 <= i < |w.deliveries| ==> Later(w.deliveries[i], v.deliveries[i]))
  {
    var v := Step(c, w, e);
    if Enabled(w, e) && e.Work? {
      AdvanceLater(c, w.store, w.deliveries[e.delivery], e.x);
    }
    forall i | 0 <= i < |v.deliveries| ensures HistoryOk(v.deliveries[i]) {
      if i < |w.deliveries| {
        assert HistoryOk(w.deliveries[i]);
      }
    }
  }

  /** The deliveries after an event that is not a worker step. */
  function DeliveriesAfter(w: World, e: Event): seq<Delivery>
    requires Enabled(w, e) && !e.Work?
  {
    match e
    case Deliver(q) => w.deliveries + [NewDelivery(w.store, w.store.queue[q].msg)]
    case Crash(i) => w.deliveries[i := w.deliveries[i].(life := Crashed)]
    case Redeliver(i) =>
      var d := w.deliveries[i];
      w.deliveries[i := d.(life := if d.life.Crashed? then Reclaimed else d.life)]
    case _ => w.deliveries
  }

  lemma StepDeliveries(c: Config, w: World, e: Event)
    requires Enabled(w, e) && !e.Work?
    ensures Step(c, w, e).deliveries == DeliveriesAfter(w, e)
  {
  }

  /** Such an event changes at most whether a delivery's worker is alive. */
  lemma OnlyLife(w: World, e: Event, i: nat)
    requires Enabled(w, e) && !e.Work? && i < |w.deliveries|
    ensures i < |DeliveriesAfter(w, e)|
    ensures DeliveriesAfter(w, e)[i] == w.deliveries[i].(life := DeliveriesAfter(w, e)[i].life)
    ensures Active(DeliveriesAfter(w, e)[i]) ==> Active(w.deliveries[i])
  {
  }

  /** A count that sees neither the new delivery nor a change of life stays as it is. */
  lemma SumOther(f: Delivery -> int, w: World, e: Event)
    requires Enabled(w, e) && !e.Work?
    requires e.Deliver? ==> f(NewDelivery(w.store, w.store.queue[e.envelope].msg)) == 0
    requires forall i :: 0 <= i < |w.deliveries| ==> f(DeliveriesAfter(w, e)[i]) == f(w.deliveries[i])
    ensures Sum(f, DeliveriesAfter(w, e)) == Sum(f, w.deliveries)
  {
    match e
    case Deliver(q) => SumAppend(f, w.deliveries, NewDelivery(w.store, w.store.queue[q].msg));
    case Crash(i) => SumUpdate(f, w.deliveries, i, DeliveriesAfter(w, e)[i]);
    case Redeliver(i) => SumUpdate(f, w.deliveries, i, DeliveriesAfter(w, e)[i]);
    case _ =>
  }

  // ---------------------------------------------------------------------------
  // No lost increments
  // ---------------------------------------------------------------------------

  function CountedOf(j: JobId): Delivery -> int
  {
    (d: Delivery) => if d.counted && d.msg.job == j then 1 else 0
  }

  function Executions(s: Store, j: JobId): nat
  {
    if j in s.rows then s.rows[j].executionCount else 0
  }

  ghost predicate CountExact(w: World, j: JobId)
  {
    Executions(w.store, j) == Sum(CountedOf(j), w.deliveries)
  }

  lemma EffectExecutions(c: Config, s: Store, d: Delivery, x: Choice, j: JobId)
    requires Active(d) && HistoryOk(d)
    ensures Executions(Effect(c, s, d.msg, d.phase, x), j) - Executions(s, j)
         == CountedOf(j)(Advance(c, s, d, x)) - CountedOf(j)(d)
  {
    if !Updates(d.phase) {
      OtherEffects(c, s, d.msg, d.phase, x);
    }
  }

  lemma CallExecutions(c: Config, s: Store, call: Call, raises: bool, j: JobId)
    requires IndexOk(s) && CallOk(c, s, call)
    ensures Executions(CallStep(c, s, call, raises).0, j) == Executions(s, j)
  {
  }

  lemma CountExactStep(c: Config, w: World, e: Event, j: JobId)
    requires IndexOk(w.store) && CallsOk(c, w) && HistoriesOk(w) && CountExact(w, j)
    ensures CountExact(Step(c, w, e), j)
  {
    if Enabled(w, e) {
      if e.Work? {
        CountExactWork(c, w, e.delivery, e.x, j);
      } else {
        if e.Api? {
          CallExecutions(c, w.store, w.calls[e.call], e.raises, j);
        }
        StepDeliveries(c, w, e);
        CountedOther(w, e, j);
      }
    }
  }

  lemma CountExactWork(c: Config, w: World, i: nat, x: Choice, j: JobId)
    requires Enabled(w, Work(i, x)) && HistoriesOk(w) && CountExact(w, j)
    ensures CountExact(Step(c, w, Work(i, x)), j)
  {
    EffectExecutions(c, w.store, w.deliveries[i], x, j);
    SumUpdate(CountedOf(j), w.deliveries, i, Advance(c, w.store, w.deliveries[i], x));
  }

  lemma CountedOther(w: World, e: Event, j: JobId)
    requires Enabled(w, e) && !e.Work?
    ensures Sum(CountedOf(j), DeliveriesAfter(w, e)) == Sum(CountedOf(j), w.deliveries)
  {
    forall i | 0 <= i < |w.deliveries| ensures CountedOf(j)(DeliveriesAfter(w, e)[i]) == CountedOf(j)(w.deliveries[i]) {
      OnlyLife(w, e, i);
    }
    SumOther(CountedOf(j), w, e);
  }

  lemma {:induction false} RunHistories(c: Config, es: seq<Event>)
    ensures HistoriesOk(Run(c, es))
  {
    if es != [] {
      RunHistories(c, es[..|es| - 1]);
      DeliveriesAdvance(c, Run(c, es[..|es| - 1]), es[|es| - 1]);
    }
  }

  /** No increment is lost: execution_count is the number of before_start writes that reached the row. */
  lemma {:induction false} NoLostIncrements(c: Config, es: seq<Event>, j: JobId)
    ensures CountExact(Run(c, es), j)
  {
    if es != [] {
      NoLostIncrements(c, es[..|es| - 1], j);
      RunHistories(c, es[..|es| - 1]);
      RunInv(c, es[..|es| - 1]);
      CountExactStep(c, Run(c, es[..|es| - 1]), es[|es| - 1], j);
    }
  }

  /** execution_count obeys the attempt bound. */
  lemma ExecutionCountBound(c: Config, es: seq<Event>, j: JobId)
    requires j in Run(c, es).store.rows
    ensures Run(c, es).store.rows[j].executionCount <= Attempted(Run(c, es), j)
    ensures Run(c, es).store.rows[j].executionCount <= (c.maxRetries + 1) * (1 + Redeliveries(Run(c, es), j))
  {
    var w := Run(c, es);
    NoLostIncrements(c, es, j);
    RunHistories(c, es);
    AttemptBound(c, es, j);
    forall i | 0 <= i < |w.deliveries| ensures CountedOf(j)(w.deliveries[i]) <= AttemptOf(j)(w.deliveries[i]) {
      assert HistoryOk(w.deliveries[i]);
    }
    SumMonotone(CountedOf(j), AttemptOf(j), w.deliveries);
  }

  // ---------------------------------------------------------------------------
  // Status is justified by history
  // ---------------------------------------------------------------------------

  ghost predicate SomeReturned(ds: seq<Delivery>, j: JobId)
  {
    exists i :: 0 <= i < |ds| && ds[i].msg.job == j && HasReturned(ds[i].phase)
  }

  ghost predicate SomeTried(ds: seq<Delivery>, j: JobId)
  {
    exists i :: 0 <= i < |ds| && ds[i].msg.job == j && ds[i].tried
  }

  predicate IsRevoked(s: Store, row: Row)
  {
    row.celeryId.Some? && row.celeryId.value in s.revoked
  }

  ghost predicate Justified(w: World, j: JobId, row: Row)
  {
    match row.status
    case PENDING => row.executionCount == 0
    case RUNNING => row.executionCount >= 1
    case COMPLETED => SomeReturned(w.deliveries, j)
    case FAILED => SomeTried(w.deliveries, j)
    case DLQ => SomeTried(w.deliveries, j)
    case CANCELLED => IsRevoked(w.store, row)
  }

  ghost predicate AllJustified(w: World)
  {
    forall j :: j in w.store.rows ==> Justified(w, j, w.store.rows[j])
  }

  /** A row that does not change stays justified. */
  lemma JustifiedKept(w: World, v: World, j: JobId, row: Row)
    requires Justified(w, j, row) && w.store.revoked <= v.store.revoked
    requires |w.deliveries| <= |v.deliveries|
    requires forall i :: 0 <= i < |w.deliveries| ==> Later(w.deliveries[i], v.deliveries[i])
    ensures Justified(v, j, row)
  {
    match row.status
    case COMPLETED =>
      var i :| 0 <= i < |w.deliveries| && w.deliveries[i].msg.job == j && HasReturned(w.deliveries[i].phase);
      assert v.deliveries[i].msg.job == j;
    case FAILED =>
      var i :| 0 <= i < |w.deliveries| && w.deliveries[i].msg.job == j && w.deliveries[i].tried;
      assert v.deliveries[i].msg.job == j;
    case DLQ =>
      var i :| 0 <= i < |w.deliveries| && w.deliveries[i].msg.job == j && w.deliveries[i].tried;
      assert v.deliveries[i].msg.job == j;
    case _ =>
  }

  /** The only rows a call changes: the one it cancels and the one it commits. */
  lemma CallRows(c: Config, s: Store, call: Call, raises: bool, j: JobId)
    requires IndexOk(s) && CallOk(c, s, call) && j in CallStep(c, s, call, raises).0.rows
    ensures var t := CallStep(c, s, call, raises).0;
            if call.phase.Revoking? && !raises && call.request.job == j then
              j in s.rows && t.rows[j] == s.rows[j].(status := CANCELLED) && IsRevoked(s, s.rows[j])
            else if call.phase.Sent? && !raises && call.phase.id == j then
              j !in s.rows && Unstarted(t.rows[j])
            else j in s.rows && t.rows[j] == s.rows[j]
  {
  }

  /** The row of the job at work, after the step. */
  lemma WorkJustified(c: Config, w: World, i: nat, x: Choice)
    requires Enabled(w, Work(i, x)) && HistoriesOk(w) && AllJustified(w)
    requires w.deliveries[i].msg.job in w.store.rows
    ensures var v := Step(c, w, Work(i, x)); var j := w.deliveries[i].msg.job;
            j in v.store.rows && Justified(v, j, v.store.rows[j])
  {
    var v := Step(c, w, Work(i, x));
    var d := w.deliveries[i];
    assert HistoryOk(d);
    DeliveriesAdvance(c, w, Work(i, x));
    EffectFrame(c, w.store, d.msg, d.phase, x);
    if v.store.rows[d.msg.job] == w.store.rows[d.msg.job] {
      JustifiedKept(w, v, d.msg.job, w.store.rows[d.msg.job]);
    } else {
      UpdateIsJustified(c, w.store, d, x);
      assert v.deliveries[i] == Advance(c, w.store, d, x);
    }
  }

  lemma UpdateIsJustified(c: Config, s: Store, d: Delivery, x: Choice)
    requires HistoryOk(d) && d.msg.job in s.rows
    requires d.msg.job in Effect(c, s, d.msg, d.phase, x).rows
    requires Effect(c, s, d.msg, d.phase, x).rows[d.msg.job] != s.rows[d.msg.job]
    ensures var row := Effect(c, s, d.msg, d.phase, x).rows[d.msg.job]; var n := Advance(c, s, d, x);
            || (row.status == RUNNING && row.executionCount >= 1)
            || (row.status == COMPLETED && HasReturned(n.phase) && n.msg == d.msg)
            || ((row.status == FAILED || row.status == DLQ) && n.tried && n.msg == d.msg)
  {
    if !Updates(d.phase) {
      OtherEffects(c, s, d.msg, d.phase, x);
    }
  }

  lemma JustifiedRow(c: Config, w: World, e: Event, j: JobId)
    requires Inv(c, w) && HistoriesOk(w) && AllJustified(w) && j in Step(c, w, e).store.rows
    requires w.store.revoked <= Step(c, w, e).store.revoked
    ensures Justified(Step(c, w, e), j, Step(c, w, e).store.rows[j])
  {
    var v := Step(c, w, e);
    DeliveriesAdvance(c, w, e);
    if Enabled(w, e) && e.Work? {
      EffectFrame(c, w.store, w.deliveries[e.delivery].msg, w.deliveries[e.delivery].phase, e.x);
      if w.deliveries[e.delivery].msg.job == j {
        WorkJustified(c, w, e.delivery, e.x);
      } else {
        JustifiedKept(w, v, j, w.store.rows[j]);
      }
    } else if Enabled(w, e) && e.Api? {
      assert CallOk(c, w.store, w.calls[e.call]);
      CallRows(c, w.store, w.calls[e.call], e.raises, j);
      if j in w.store.rows && v.store.rows[j] == w.store.rows[j] {
        JustifiedKept(w, v, j, w.store.rows[j]);
      }
    } else {
      JustifiedKept(w, v, j, w.store.rows[j]);
    }
  }

  lemma JustifiedStep(c: Config, w: World, e: Event)
    requires Inv(c, w) && HistoriesOk(w) && AllJustified(w)
    ensures AllJustified(Step(c, w, e))
  {
    StepInv(c, w, e);
    forall j | j in Step(c, w, e).store.rows ensures Justified(Step(c, w, e), j, Step(c, w, e).store.rows[j]) {
      JustifiedRow(c, w, e, j);
    }
  }

  /**
   In every reachable state: PENDING means never counted, RUNNING counted at least once, COMPLETED
   that a delivery of the job returned, FAILED and DLQ that a DLQ send was attempted for it,
   CANCELLED that its celery id is revoked.
   */
  lemma {:induction false} StatusJustified(c: Config, es: seq<Event>)
    ensures AllJustified(Run(c, es))
  {
    if es != [] {
      StatusJustified(c, es[..|es| - 1]);
      RunHistories(c, es[..|es| - 1]);
      RunInv(c, es[..|es| - 1]);
      JustifiedStep(c, Run(c, es[..|es| - 1]), es[|es| - 1]);
    }
  }
}
