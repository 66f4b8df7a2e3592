/**
 At-least-once delivery, under every crash and redelivery: a published job is never dropped. As long
 as no attempt of it has come to an end, the broker holds its message or will put it back.
 */
module AtLeastOnce {
  import opened JobModel
  import opened Protocol
  import opened ApiInvariant
  import opened CreateRace
  import opened Attempts
  import opened JobStatusHistory
  import opened Finality

  /** A delivery whose message the broker still answers for, and which has not published a retry in its place. */
  predicate Carrying(d: Delivery, j: JobId)
  {
    Returnable(d, j) && !d.phase.CountingRetry? && d.phase != Acking(Requeued)
  }

  /** A delivery after which nothing more is owed: revoked, returned or failed for good. */
  predicate Concluded(d: Delivery, j: JobId)
  {
    d.msg.job == j && (d.phase.Discarded? || (d.phase.Finished? && !d.phase.end.Requeued?))
  }

  ghost predicate Waits(s: Store, j: JobId)
  {
    exists q :: 0 <= q < |s.queue| && Copy(s.queue[q], j)
  }

  /** A delivery that carries the job or concluded it. */
  predicate Keeps(d: Delivery, j: JobId)
  {
    Carrying(d, j) || Concluded(d, j)
  }

  ghost predicate Kept(w: World, j: JobId)
  {
    Waits(w.store, j) || exists i :: 0 <= i < |w.deliveries| && Keeps(w.deliveries[i], j)
  }

  /** A delivery that carries the job still does after its step, passes it on, or concludes. */
  lemma CarrierStep(c: Config, s: Store, d: Delivery, x: Choice, j: JobId)
    requires Active(d) && Keeps(d, j)
    ensures Keeps(Advance(c, s, d, x), j) || (d.phase.Requeueing? && d.msg.job == j)
  {
  }

  lemma KeptWork(c: Config, w: World, i: nat, x: Choice, j: JobId)
    requires Enabled(w, Work(i, x)) && Kept(w, j)
    ensures Kept(Step(c, w, Work(i, x)), j)
  {
    var d, v := w.deliveries[i], Step(c, w, Work(i, x));
    EffectPublishes(c, w.store, d.msg, d.phase, x);
    if Waits(w.store, j) {
      var q :| 0 <= q < |w.store.queue| && Copy(w.store.queue[q], j);
      assert Copy(v.store.queue[q], j);
    } else {
      var n :| 0 <= n < |w.deliveries| && Keeps(w.deliveries[n], j);
      if n == i {
        CarrierStep(c, w.store, d, x, j);
        if d.phase.Requeueing? {
          assert Copy(v.store.queue[|w.store.queue|], j);
        } else {
          assert Keeps(v.deliveries[i], j);
        }
      } else {
        assert Keeps(v.deliveries[n], j);
      }
    }
  }

  lemma KeptDeliver(c: Config, w: World, q: nat, j: JobId)
    requires Enabled(w, Deliver(q)) && Kept(w, j)
    ensures Kept(Step(c, w, Deliver(q)), j)
  {
    var v, n := Step(c, w, Deliver(q)), |w.deliveries|;
    if w.store.queue[q].msg.job == j {
      assert Keeps(v.deliveries[n], j);
    } else if Waits(w.store, j) {
      var p :| 0 <= p < |w.store.queue| && Copy(w.store.queue[p], j);
      assert Copy(v.store.queue[p], j);
    } else {
      var i :| 0 <= i < n && Keeps(w.deliveries[i], j);
      assert v.deliveries[i] == w.deliveries[i];
    }
  }

  /** A crash leaves the message with the broker. */
  lemma KeptCrash(c: Config, w: World, k: nat, j: JobId)
    requires Enabled(w, Crash(k)) && Kept(w, j)
    ensures Kept(Step(c, w, Crash(k)), j)
  {
    var v := Step(c, w, Crash(k));
    assert v.store == w.store && v.deliveries == w.deliveries[k := w.deliveries[k].(life := Crashed)];
    if !Waits(w.store, j) {
      var i :| 0 <= i < |w.deliveries| && Keeps(w.deliveries[i], j);
      assert Keeps(v.deliveries[i], j);
    }
  }

  /** A redelivery makes the message wait again. */
  lemma KeptRedeliver(c: Config, w: World, k: nat, j: JobId)
    requires Enabled(w, Redeliver(k)) && Kept(w, j)
    ensures Kept(Step(c, w, Redeliver(k)), j)
  {
    var v := Step(c, w, Redeliver(k));
    assert v.deliveries == w.deliveries[k := v.deliveries[k]];
    if w.deliveries[k].msg.job == j {
      assert Copy(v.store.queue[|w.store.queue|], j);
    } else if Waits(w.store, j) {
      var q :| 0 <= q < |w.store.queue| && Copy(w.store.queue[q], j);
      assert Copy(v.store.queue[q], j);
    } else {
      var i :| 0 <= i < |w.deliveries| && Keeps(w.deliveries[i], j);
      assert v.deliveries[i] == w.deliveries[i];
    }
  }

  lemma KeptApi(c: Config, w: World, i: nat, raises: bool, j: JobId)
    requires i < |w.calls| && Kept(w, j)
    ensures Kept(Step(c, w, Api(i, raises)), j)
  {
    var v := Step(c, w, Api(i, raises));
    CallQueue(c, w.store, w.calls[i], raises);
    if Waits(w.store, j) {
      var q :| 0 <= q < |w.store.queue| && Copy(w.store.queue[q], j);
      assert Copy(v.store.queue[q], j);
    } else {
      assert v.deliveries == w.deliveries;
    }
  }

  lemma KeptStep(c: Config, w: World, e: Event, j: JobId)
    requires Kept(w, j)
    ensures Kept(Step(c, w, e), j)
  {
    if Enabled(w, e) {
      match e
      case Work(i, x) => KeptWork(c, w, i, x, j);
      case Deliver(q) => KeptDeliver(c, w, q, j);
      case Api(i, raises) => KeptApi(c, w, i, raises, j);
      case Crash(k) => KeptCrash(c, w, k, j);
      case Redeliver(k) => KeptRedeliver(c, w, k, j);
      case _ => assert Step(c, w, e).deliveries == w.deliveries && Step(c, w, e).store.queue == w.store.queue;
    }
  }

  lemma CallSentWaits(c: Config, s: Store, call: Call, raises: bool, j: JobId)
    requires CallOk(c, s, call) && j !in s.sent && j in CallStep(c, s, call, raises).0.sent
    ensures Waits(CallStep(c, s, call, raises).0, j)
  {
    var t := CallStep(c, s, call, raises).0;
    CallSent(c, s, call, raises, j);
    CallPublishes(c, s, call, raises);
    assert Copy(t.queue[|s.queue|], j);
  }

  /** The publication itself makes the message wait. */
  lemma SentWaits(c: Config, w: World, e: Event, j: JobId)
    requires CallsOk(c, w) && j !in w.store.sent && j in Step(c, w, e).store.sent
    ensures Waits(Step(c, w, e).store, j)
  {
    if e.Work? {
      EffectFrame(c, w.store, w.deliveries[e.delivery].msg, w.deliveries[e.delivery].phase, e.x);
    } else if e.Api? {
      CallSentWaits(c, w.store, w.calls[e.call], e.raises, j);
    }
  }

  /**
   In every run, whatever crashes and is redelivered: a job once published has a message waiting, a
   delivery that the broker still answers for, or an attempt that was concluded.
   */
  lemma {:induction false} NeverDropped(c: Config, es: seq<Event>, j: JobId)
    requires j in Run(c, es).store.sent
    ensures Kept(Run(c, es), j)
  {
    var w, e := Run(c, es[..|es| - 1]), es[|es| - 1];
    RunInv(c, es[..|es| - 1]);
    if j in w.store.sent {
      NeverDropped(c, es[..|es| - 1], j);
      KeptStep(c, w, e, j);
    } else {
      SentWaits(c, w, e, j);
    }
  }

  /** Only revoked messages are discarded. */
  lemma {:induction false} DiscardedIsRevoked(c: Config, es: seq<Event>, i: nat)
    requires i < |Run(c, es).deliveries| && Run(c, es).deliveries[i].phase.Discarded?
    ensures Run(c, es).deliveries[i].msg.id in Run(c, es).store.revoked
  {
    var w, e := Run(c, es[..|es| - 1]), es[|es| - 1];
    RunInv(c, es[..|es| - 1]);
    StepInv(c, w, e);
    if i < |w.deliveries| {
      DiscardedStays(c, w, e, i);
      DiscardedIsRevoked(c, es[..|es| - 1], i);
    }
  }

  lemma DiscardedStays(c: Config, w: World, e: Event, i: nat)
    requires i < |w.deliveries| && i < |Step(c, w, e).deliveries| && Step(c, w, e).deliveries[i].phase.Discarded?
    ensures w.deliveries[i].phase.Discarded? && Step(c, w, e).deliveries[i].msg == w.deliveries[i].msg
  {
  }

  ghost predicate AnyEnded(ds: seq<Delivery>, j: JobId)
  {
    exists i :: 0 <= i < |ds| && ds[i].msg.job == j && ds[i].phase.Finished? && !ds[i].phase.end.Requeued?
  }

  /**
   Drain under crashes: once the broker holds no message of a committed job, the job was revoked, or
   one of its attempts has returned or failed for good.
   */
  lemma DrainedIsConcluded(c: Config, es: seq<Event>, j: JobId)
    requires j in Run(c, es).store.rows && NoCopies(Run(c, es), j)
    ensures IsRevoked(Run(c, es).store, Run(c, es).store.rows[j]) || AnyEnded(Run(c, es).deliveries, j)
  {
    var w := Run(c, es);
    RunInv(c, es);
    assert RowSent(w.store, j, w.store.rows[j]);
    NeverDropped(c, es, j);
    var i :| 0 <= i < |w.deliveries| && Keeps(w.deliveries[i], j);
    assert Concluded(w.deliveries[i], j);
    if w.deliveries[i].phase.Discarded? {
      DiscardedIsRevoked(c, es, i);
      assert DeliveryOk(c, w.store, w.deliveries[i]);
    }
  }
}
