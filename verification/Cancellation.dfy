/**
 Permanent cancellation. cancel_job checks the status and updates it later without a second check,
 so a delivery that overlaps the call can overwrite CANCELLED; without such an overlap the job
 never runs again.
 */
module Cancellation {
  import opened JobModel
  import opened Protocol
  import opened ApiInvariant
  import opened Attempts
  import opened JobStatusHistory
  import opened Sums

  /** No delivery of the job is at work. */
  ghost predicate NoFlight(w: World, j: JobId)
  {
    forall i :: 0 <= i < |w.deliveries| && w.deliveries[i].msg.job == j ==> !Active(w.deliveries[i])
  }

  /** A delivery at this phase can still write its job's status, whatever else happens. */
  predicate WriteAhead(p: Phase)
  {
    || p.Starting? || p.Checking? || p.Executing? || p.Completing?
    || p.DlqSending? || p.WritingFailed? || p.WritingDlq?
    || (p.CountingFailed? && p.pass.OwnCall?) || (p.Gauging? && p.pass.OwnCall?)
  }

  predicate Writer(d: Delivery, j: JobId)
  {
    d.msg.job == j && Active(d) && WriteAhead(d.phase)
  }

  ghost predicate NoWriter(w: World, j: JobId)
  {
    forall i :: 0 <= i < |w.deliveries| ==> !Writer(w.deliveries[i], j)
  }

  /** With no writer at work, only a cancel call changes the row, and only to CANCELLED. */
  lemma QuietRow(c: Config, w: World, e: Event, j: JobId)
    requires Inv(c, w) && NoWriter(w, j) && j in w.store.rows
    ensures var v := Step(c, w, e);
            && j in v.store.rows
            && (v.store.rows[j] == w.store.rows[j]
                || (v.store.rows[j] == w.store.rows[j].(status := CANCELLED) && IsRevoked(v.store, v.store.rows[j])))
  {
    StepInv(c, w, e);
    if Enabled(w, e) && e.Work? {
      var d := w.deliveries[e.delivery];
      assert !Writer(d, j);
      EffectFrame(c, w.store, d.msg, d.phase, e.x);
      if !Updates(d.phase) {
        OtherEffects(c, w.store, d.msg, d.phase, e.x);
      }
    } else if Enabled(w, e) && e.Api? {
      assert CallOk(c, w.store, w.calls[e.call]);
      CallRows(c, w.store, w.calls[e.call], e.raises, j);
    }
  }

  // ---------------------------------------------------------------------------
  // After the cancellation
  // ---------------------------------------------------------------------------

  ghost predicate CancelledRow(w: World, j: JobId)
  {
    j in w.store.rows && w.store.rows[j].status == CANCELLED && IsRevoked(w.store, w.store.rows[j])
  }

  lemma CancelledRowStep(c: Config, w: World, e: Event, j: JobId)
    requires Inv(c, w) && CancelledRow(w, j) && NoWriter(w, j)
    ensures CancelledRow(Step(c, w, e), j)
    ensures Step(c, w, e).store.rows[j].executionCount == w.store.rows[j].executionCount
  {
    QuietRow(c, w, e, j);
    StepInv(c, w, e);
  }

  /** A revoked job's messages all carry its row's celery id, so none of them starts. */
  lemma RevokedNeverStarts(c: Config, w: World, q: nat, j: JobId)
    requires Inv(c, w) && CancelledRow(w, j)
    requires Enabled(w, Deliver(q)) && w.store.queue[q].msg.job == j
    ensures NewDelivery(w.store, w.store.queue[q].msg).phase == Discarded
  {
    assert MessageOk(c, w.store, w.store.queue[q].msg);
    assert RowSent(w.store, j, w.store.rows[j]);
  }

  /** A delivery with no write ahead never gets one back. */
  lemma NoWriteAhead(c: Config, s: Store, d: Delivery, x: Choice)
    requires !WriteAhead(d.phase)
    ensures !WriteAhead(Advance(c, s, d, x).phase)
  {
  }

  lemma NoWriterStep(c: Config, w: World, e: Event, j: JobId)
    requires Inv(c, w) && CancelledRow(w, j) && NoWriter(w, j)
    ensures NoWriter(Step(c, w, e), j)
  {
    var v := Step(c, w, e);
    if Enabled(w, e) && e.Deliver? && w.store.queue[e.envelope].msg.job == j {
      RevokedNeverStarts(c, w, e.envelope, j);
    }
    forall i | 0 <= i < |v.deliveries| ensures !Writer(v.deliveries[i], j) {
      if i < |w.deliveries| {
        assert !Writer(w.deliveries[i], j);
        if Enabled(w, e) && e.Work? && e.delivery == i && !WriteAhead(w.deliveries[i].phase) {
          NoWriteAhead(c, w.store, w.deliveries[i], e.x);
        }
      }
    }
  }

  lemma {:induction false} StaysCancelled(c: Config, es: seq<Event>, fs: seq<Event>, j: JobId)
    requires CancelledRow(Run(c, es), j) && NoWriter(Run(c, es), j)
    ensures CancelledRow(Run(c, es + fs), j) && NoWriter(Run(c, es + fs), j)
    ensures Run(c, es + fs).store.rows[j].executionCount == Run(c, es).store.rows[j].executionCount
  {
    RunMore(c, es, fs);
    if fs != [] {
      var gs := fs[..|fs| - 1];
      StaysCancelled(c, es, gs, j);
      RunInv(c, es + gs);
      CancelledRowStep(c, Run(c, es + gs), fs[|fs| - 1], j);
      NoWriterStep(c, Run(c, es + gs), fs[|fs| - 1], j);
    }
  }

  // ---------------------------------------------------------------------------
  // No attempt ever starts again
  // ---------------------------------------------------------------------------

  lemma NoFlightStep(c: Config, w: World, e: Event, j: JobId)
    requires Inv(c, w) && CancelledRow(w, j) && NoFlight(w, j)
    ensures NoFlight(Step(c, w, e), j)
  {
    var v := Step(c, w, e);
    if Enabled(w, e) && e.Work? {
      forall i | 0 <= i < |v.deliveries| && v.deliveries[i].msg.job == j ensures !Active(v.deliveries[i]) {
        assert v.deliveries[i].msg == w.deliveries[i].msg && !Active(w.deliveries[i]);
      }
    } else if Enabled(w, e) {
      StepDeliveries(c, w, e);
      if e.Deliver? && w.store.queue[e.envelope].msg.job == j {
        RevokedNeverStarts(c, w, e.envelope, j);
      }
      NoFlightOther(w, e, j);
    }
  }

  lemma NoFlightOther(w: World, e: Event, j: JobId)
    requires Enabled(w, e) && !e.Work? && NoFlight(w, j)
    requires e.Deliver? && w.store.queue[e.envelope].msg.job == j ==>
               NewDelivery(w.store, w.store.queue[e.envelope].msg).phase == Discarded
    ensures forall i :: 0 <= i < |DeliveriesAfter(w, e)| && DeliveriesAfter(w, e)[i].msg.job == j ==>
              !Active(DeliveriesAfter(w, e)[i])
  {
  }

  lemma NoNewAttempt(c: Config, w: World, e: Event, j: JobId)
    requires Inv(c, w) && CancelledRow(w, j)
    ensures Attempted(Step(c, w, e), j) == Attempted(w, j)
  {
    if Enabled(w, e) && e.Work? {
      AdvanceAttempt(c, w.store, w.deliveries[e.delivery], e.x, j);
      SumUpdate(AttemptOf(j), w.deliveries, e.delivery, Advance(c, w.store, w.deliveries[e.delivery], e.x));
    } else if Enabled(w, e) {
      if e.Deliver? && w.store.queue[e.envelope].msg.job == j {
        RevokedNeverStarts(c, w, e.envelope, j);
      }
      StepDeliveries(c, w, e);
      SumOther(AttemptOf(j), w, e);
    }
  }

  lemma AdvanceAttempt(c: Config, s: Store, d: Delivery, x: Choice, j: JobId)
    requires Active(d)
    ensures AttemptOf(j)(Advance(c, s, d, x)) == AttemptOf(j)(d)
  {
  }

  lemma {:induction false} NoFlightForever(c: Config, es: seq<Event>, fs: seq<Event>, j: JobId)
    requires CancelledRow(Run(c, es), j) && NoFlight(Run(c, es), j)
    ensures NoFlight(Run(c, es + fs), j) && Attempted(Run(c, es + fs), j) == Attempted(Run(c, es), j)
  {
    RunMore(c, es, fs);
    if fs != [] {
      var gs := fs[..|fs| - 1];
      NoFlightForever(c, es, gs, j);
      StaysCancelled(c, es, gs, j);
      RunInv(c, es + gs);
      NoFlightStep(c, Run(c, es + gs), fs[|fs| - 1], j);
      NoNewAttempt(c, Run(c, es + gs), fs[|fs| - 1], j);
    }
  }

  // ---------------------------------------------------------------------------
  // From the status read to the commit
  // ---------------------------------------------------------------------------

  /** The cancel call `i` has read PENDING and may have committed since. */
  ghost predicate Window(w: World, j: JobId, i: nat)
  {
    && j in w.store.rows && w.store.rows[j].executionCount == 0
    && i < |w.calls| && w.calls[i].request == Cancel(j)
    && (w.calls[i].phase.PendingSeen? || w.calls[i].phase.Revoking? || w.calls[i].phase.Aborted?
        || w.calls[i].phase == Replied(Cancelled))
    && (w.calls[i].phase.Replied? ==> w.store.rows[j].status == CANCELLED && IsRevoked(w.store, w.store.rows[j]))
  }

  /** The cancel call's own step keeps it in the window. */
  lemma WindowSelf(c: Config, w: World, raises: bool, j: JobId, i: nat)
    requires Inv(c, w) && Window(w, j, i)
    ensures Window(Step(c, w, Api(i, raises)), j, i)
  {
    assert CallOk(c, w.store, w.calls[i]);
  }

  lemma WindowStep(c: Config, w: World, e: Event, j: JobId, i: nat)
    requires Inv(c, w) && Window(w, j, i) && NoFlight(w, j)
    ensures Window(Step(c, w, e), j, i)
  {
    if e.Api? && e.call == i {
      WindowSelf(c, w, e.raises, j, i);
    } else {
      QuietRow(c, w, e, j);
      StepInv(c, w, e);
      CallStays(c, w, e, i);
    }
  }

  lemma CallStays(c: Config, w: World, e: Event, i: nat)
    requires i < |w.calls| && (e.Api? ==> e.call != i)
    ensures i < |Step(c, w, e).calls| && Step(c, w, e).calls[i] == w.calls[i]
  {
  }

  lemma {:induction false} WindowLasts(c: Config, es: seq<Event>, fs: seq<Event>, j: JobId, i: nat)
    requires Window(Run(c, es), j, i)
    requires forall n :: 0 <= n <= |fs| ==> NoFlight(Run(c, es + fs[..n]), j)
    ensures Window(Run(c, es + fs), j, i)
  {
    RunMore(c, es, fs);
    if fs != [] {
      var gs := fs[..|fs| - 1];
      forall n | 0 <= n <= |gs| ensures NoFlight(Run(c, es + gs[..n]), j) {
        assert gs[..n] == fs[..n];
      }
      WindowLasts(c, es, gs, j, i);
      RunInv(c, es + gs);
      assert gs[..|gs|] == gs;
      assert fs[..|gs|] == gs;
      WindowStep(c, Run(c, es + gs), fs[|fs| - 1], j, i);
    }
  }

  /** The read: a cancel call that goes on has seen a PENDING row, which was never counted. */
  lemma ReadOpensWindow(c: Config, es: seq<Event>, j: JobId, i: nat)
    requires i < |Run(c, es).calls| && Run(c, es).calls[i] == Call(Cancel(j), Opened)
    requires Run(c, es + [Api(i, false)]).calls[i].phase.PendingSeen?
    ensures Window(Run(c, es + [Api(i, false)]), j, i)
  {
    assert (es + [Api(i, false)])[..|es|] == es;
    StatusJustified(c, es);
    assert Justified(Run(c, es), j, Run(c, es).store.rows[j]);
  }

  /**
   A cancel call reads PENDING right after `es`, has answered by the end of `fs`, and no delivery of
   the job is at work in between: then in every continuation the row stays CANCELLED with
   execution_count 0, and no attempt of the job ever starts again.
   */
  lemma CancelIsPermanent(c: Config, es: seq<Event>, fs: seq<Event>, gs: seq<Event>, j: JobId, i: nat)
    requires i < |Run(c, es).calls| && Run(c, es).calls[i] == Call(Cancel(j), Opened)
    requires var read := es + [Api(i, false)];
             && Run(c, read).calls[i].phase.PendingSeen?
             && i < |Run(c, read + fs).calls| && Run(c, read + fs).calls[i].phase == Replied(Cancelled)
             && forall n :: 0 <= n <= |fs| ==> NoFlight(Run(c, read + fs[..n]), j)
    ensures var w := Run(c, es + [Api(i, false)] + fs + gs);
            && j in w.store.rows && w.store.rows[j].status == CANCELLED && w.store.rows[j].executionCount == 0
            && NoFlight(w, j)
            && Attempted(w, j) == Attempted(Run(c, es + [Api(i, false)] + fs), j)
  {
    var read := es + [Api(i, false)];
    ReadOpensWindow(c, es, j, i);
    WindowLasts(c, read, fs, j, i);
    assert fs[..|fs|] == fs;
    StaysCancelled(c, read + fs, gs, j);
    NoFlightForever(c, read + fs, gs, j);
  }
}
