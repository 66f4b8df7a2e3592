/**
 Whether the API's answers are true: which request is refused, with which reply, what a refusal and
 an exception leave untouched, and what a client that was told "cancelled" or "created" may rely on.
 */
module Replies {
  import opened JobModel
  import opened Protocol
  import opened ApiInvariant
  import opened CreateRace
  import opened JobStatusHistory
  import opened KeyOwnership

  // ---------------------------------------------------------------------------
  // The read
  // ---------------------------------------------------------------------------

  /** A DLQ retry goes on exactly for a row in DLQ, with that row; otherwise its client learns why not. */
  lemma RetryReadIff(c: Config, es: seq<Event>, n: nat, job: JobId)
    requires n < |Run(c, es).calls| && Run(c, es).calls[n] == Call(RetryDlq(job), Opened)
    ensures var rows := Run(c, es).store.rows; var p := Run(c, es + [Api(n, false)]).calls[n].phase;
            && (p.Original? <==> job in rows && rows[job].status == DLQ) && (p.Original? ==> p.row == rows[job])
            && (p == Replied(NotFound) <==> job !in rows)
            && (job in rows && rows[job].status != DLQ ==> p == Replied(Conflict(rows[job].status)))
  {
    OneMoreEvent(c, es, Api(n, false));
  }

  /** A cancel goes on exactly for a PENDING row, with its celery id; otherwise its client learns why not. */
  lemma CancelReadIff(c: Config, es: seq<Event>, n: nat, job: JobId)
    requires n < |Run(c, es).calls| && Run(c, es).calls[n] == Call(Cancel(job), Opened)
    ensures var rows := Run(c, es).store.rows; var p := Run(c, es + [Api(n, false)]).calls[n].phase;
            && (p.PendingSeen? <==> job in rows && rows[job].status == PENDING)
            && (p.PendingSeen? ==> p.celeryId == rows[job].celeryId)
            && (p == Replied(NotFound) <==> job !in rows)
            && (job in rows && rows[job].status != PENDING ==> p == Replied(Conflict(rows[job].status)))
  {
    OneMoreEvent(c, es, Api(n, false));
  }

  /** A create is refused at once exactly when its task is not whitelisted. */
  lemma CreateRefusedIff(c: Config, es: seq<Event>, n: nat, task: TaskName, payload: Payload, key: Key)
    requires n < |Run(c, es).calls| && Run(c, es).calls[n] == Call(Create(task, payload, key), Opened)
    ensures Run(c, es + [Api(n, false)]).calls[n].phase == Replied(NotAllowed) <==> task !in c.allowed
  {
    OneMoreEvent(c, es, Api(n, false));
  }

  // ---------------------------------------------------------------------------
  // Refusals
  // ---------------------------------------------------------------------------

  /** The replies that end a call at its read. */
  predicate Refusal(r: Reply)
  {
    !r.Created? && !r.Cancelled?
  }

  predicate Refused(p: CallPhase)
  {
    p.Replied? && Refusal(p.reply)
  }

  /** What such a reply claims about the rows. */
  predicate Truthful(c: Config, rows: map<JobId, Row>, r: Request, reply: Reply)
  {
    match reply
    case NotAllowed => r.Create? && r.task !in c.allowed
    case NotFound => !r.Create? && r.job !in rows
    case Conflict(current) =>
      && !r.Create? && r.job in rows && rows[r.job].status == current
      && current != (if r.Cancel? then PENDING else DLQ)
    case Existing(id, key) => r.Create? && r.task in c.allowed && r.key == key && id in rows && rows[id].key == key
    case _ => false
  }

  /** Event number `n` was the read of call `i`, and the reply told what the rows then were. */
  ghost predicate ToldAt(c: Config, es: seq<Event>, n: nat, i: nat)
  {
    && n < |es| && es[n] == Api(i, false)
    && var w, v := Run(c, es[..n]), Run(c, es[..n + 1]);
       && i < |w.calls| && w.calls[i].phase.Opened? && v.store == w.store
       && i < |v.calls| && Refused(v.calls[i].phase)
       && Truthful(c, w.store.rows, w.calls[i].request, v.calls[i].phase.reply)
       && i < |Run(c, es).calls| && Run(c, es).calls[i] == v.calls[i]
  }

  /** A call is refused by its read or not at all. */
  lemma RefusedStep(c: Config, w: World, e: Event, i: nat)
    requires Inv(c, w) && i < |Step(c, w, e).calls| && Refused(Step(c, w, e).calls[i].phase)
    ensures var v := Step(c, w, e);
            && i < |w.calls|
            && (v.calls[i] == w.calls[i]
                || (e == Api(i, false) && w.calls[i].phase.Opened? && v.store == w.store
                    && Truthful(c, w.store.rows, w.calls[i].request, v.calls[i].phase.reply)))
  {
    if Enabled(w, e) && e.Api? && e.call == i {
      assert CallOk(c, w.store, w.calls[i]);
      RefusedCall(c, w.store, w.calls[i], e.raises);
    }
  }

  lemma RefusedCall(c: Config, s: Store, call: Call, raises: bool)
    requires IndexOk(s) && Refused(CallStep(c, s, call, raises).1)
    ensures var (t, p) := CallStep(c, s, call, raises);
            || p == call.phase
            || (!raises && call.phase.Opened? && t == s && Truthful(c, s.rows, call.request, p.reply))
  {
  }

  /** Every refusal was true of the rows when its call read them. */
  lemma {:induction false} RefusalsAreTrue(c: Config, es: seq<Event>, i: nat)
    requires i < |Run(c, es).calls| && Refused(Run(c, es).calls[i].phase)
    ensures exists n: nat :: ToldAt(c, es, n, i)
  {
    var m := |es| - 1;
    var w := Run(c, es[..m]);
    RunInv(c, es[..m]);
    RefusedStep(c, w, es[m], i);
    if Run(c, es).calls[i] == w.calls[i] {
      RefusalsAreTrue(c, es[..m], i);
      var n: nat :| ToldAt(c, es[..m], n, i);
      assert es[..m][..n] == es[..n] && es[..m][..n + 1] == es[..n + 1];
      assert ToldAt(c, es, n, i);
    } else {
      assert es[..m + 1] == es;
      assert ToldAt(c, es, m, i);
    }
  }

  /** A call that has begun its work is not refused any more. */
  lemma {:induction false} NeverRefusedLater(c: Config, es: seq<Event>, fs: seq<Event>, i: nat)
    requires i < |Run(c, es).calls| && !Run(c, es).calls[i].phase.Opened? && !Refused(Run(c, es).calls[i].phase)
    ensures i < |Run(c, es + fs).calls|
    ensures !Run(c, es + fs).calls[i].phase.Opened? && !Refused(Run(c, es + fs).calls[i].phase)
  {
    RunMore(c, es, fs);
    if fs != [] {
      var gs := fs[..|fs| - 1];
      NeverRefusedLater(c, es, gs, i);
      RunInv(c, es + gs);
      StaysUnrefused(c, Run(c, es + gs), fs[|fs| - 1], i);
    }
  }

  lemma StaysUnrefused(c: Config, w: World, e: Event, i: nat)
    requires Inv(c, w) && i < |w.calls| && !w.calls[i].phase.Opened? && !Refused(w.calls[i].phase)
    ensures var v := Step(c, w, e);
            i < |v.calls| && !v.calls[i].phase.Opened? && !Refused(v.calls[i].phase)
  {
    if Refused(Step(c, w, e).calls[i].phase) {
      RefusedStep(c, w, e, i);
    }
  }

  /** A refused call changed nothing, at any of its steps: it inserted, sent, revoked and counted nothing. */
  lemma RefusalsChangeNothing(c: Config, es: seq<Event>, i: nat, n: nat)
    requires i < |Run(c, es).calls| && Refused(Run(c, es).calls[i].phase)
    requires n < |es| && es[n].Api? && es[n].call == i
    ensures Run(c, es[..n + 1]).store == Run(c, es[..n]).store
  {
    var w := Run(c, es[..n]);
    assert es[..n + 1][..n] == es[..n];
    if i < |w.calls| {
      IdleBefore(c, es, n, i);
      IdleStep(c, w.store, w.calls[i], es[n].raises);
    }
  }

  lemma IdleBefore(c: Config, es: seq<Event>, n: nat, i: nat)
    requires i < |Run(c, es).calls| && Refused(Run(c, es).calls[i].phase)
    requires n <= |es| && i < |Run(c, es[..n]).calls|
    ensures Run(c, es[..n]).calls[i].phase.Opened? || Refused(Run(c, es[..n]).calls[i].phase)
  {
    assert es[..n] + es[n..] == es;
    if !Run(c, es[..n]).calls[i].phase.Opened? && !Refused(Run(c, es[..n]).calls[i].phase) {
      NeverRefusedLater(c, es[..n], es[n..], i);
    }
  }

  lemma IdleStep(c: Config, s: Store, call: Call, raises: bool)
    requires call.phase.Opened? || Refused(call.phase)
    ensures CallStep(c, s, call, raises).0 == s
  {
  }

  // ---------------------------------------------------------------------------
  // Exceptions
  // ---------------------------------------------------------------------------

  /** The row that a call holds in an open transaction. */
  function Held(p: CallPhase): Option<JobId>
  {
    match p
    case Flushed(id, _) => Some(id)
    case Sent(id, _) => Some(id)
    case _ => None
  }

  /**
   An exception takes back the call's own open insert and nothing else: rows, messages, revocations,
   cache and metrics stay, and so does every insert of another call.
   */
  lemma ExceptionsUndoOnlyInserts(c: Config, es: seq<Event>, i: nat, j: JobId)
    requires i < |Run(c, es).calls|
    ensures var s, t := Run(c, es).store, Run(c, es + [Api(i, true)]).store;
            && t == s.(pending := t.pending, index := t.index)
            && (j in t.pending <==> j in s.pending && Held(Run(c, es).calls[i].phase) != Some(j))
            && (j in t.pending ==> t.pending[j] == s.pending[j])
  {
    RunInv(c, es);
    OneMoreEvent(c, es, Api(i, true));
    assert CallOk(c, Run(c, es).store, Run(c, es).calls[i]);
  }

  ghost predicate SomeHolds(w: World, j: JobId)
  {
    exists i :: 0 <= i < |w.calls| && Held(w.calls[i].phase) == Some(j)
  }

  /** An open row belongs to a call that is still at work on it. */
  ghost predicate PendingHeld(w: World)
  {
    forall j :: j in w.store.pending ==> SomeHolds(w, j)
  }

  lemma HeldCall(c: Config, s: Store, call: Call, raises: bool, j: JobId)
    requires CallOk(c, s, call) && j in CallStep(c, s, call, raises).0.pending
    ensures Held(CallStep(c, s, call, raises).1) == Some(j)
         || (j in s.pending && Held(call.phase) != Some(j))
  {
  }

  lemma HeldApi(c: Config, w: World, i: nat, raises: bool, j: JobId)
    requires CallsOk(c, w) && i < |w.calls| && PendingHeld(w) && j in Step(c, w, Api(i, raises)).store.pending
    ensures SomeHolds(Step(c, w, Api(i, raises)), j)
  {
    var v := Step(c, w, Api(i, raises));
    assert CallOk(c, w.store, w.calls[i]);
    HeldCall(c, w.store, w.calls[i], raises, j);
    if Held(v.calls[i].phase) != Some(j) {
      var n :| 0 <= n < |w.calls| && Held(w.calls[n].phase) == Some(j);
      assert v.calls[n] == w.calls[n];
    }
  }

  lemma HeldStep(c: Config, w: World, e: Event)
    requires CallsOk(c, w) && PendingHeld(w)
    ensures PendingHeld(Step(c, w, e))
  {
    var v := Step(c, w, e);
    forall j | j in v.store.pending ensures SomeHolds(v, j) {
      if Enabled(w, e) && e.Api? {
        HeldApi(c, w, e.call, e.raises, j);
      } else {
        if Enabled(w, e) && e.Work? {
          EffectFrame(c, w.store, w.deliveries[e.delivery].msg, w.deliveries[e.delivery].phase, e.x);
        }
        var n :| 0 <= n < |w.calls| && Held(w.calls[n].phase) == Some(j);
        assert v.calls[n] == w.calls[n];
      }
    }
  }

  /** No transaction outlives its request: a key is blocked only while a call holds its row. */
  lemma {:induction false} NoTransactionLeaks(c: Config, es: seq<Event>)
    ensures PendingHeld(Run(c, es))
  {
    if es != [] {
      NoTransactionLeaks(c, es[..|es| - 1]);
      RunInv(c, es[..|es| - 1]);
      HeldStep(c, Run(c, es[..|es| - 1]), es[|es| - 1]);
    }
  }

  // ---------------------------------------------------------------------------
  // "Cancelled"
  // ---------------------------------------------------------------------------

  /** Event number `n` was the write of cancel call `i`: it set CANCELLED, after the revoke. */
  ghost predicate WroteAt(c: Config, es: seq<Event>, n: nat, i: nat, j: JobId)
  {
    && n < |es| && es[n] == Api(i, false)
    && var w, v := Run(c, es[..n]), Run(c, es[..n + 1]);
       && i < |w.calls| && w.calls[i] == Call(Cancel(j), Revoking)
       && j in w.store.rows && IsRevoked(w.store, w.store.rows[j])
       && j in v.store.rows && v.store.rows[j] == w.store.rows[j].(status := CANCELLED)
  }

  lemma CancelledStep(c: Config, w: World, e: Event, i: nat, j: JobId)
    requires Inv(c, w) && i < |Step(c, w, e).calls| && Step(c, w, e).calls[i] == Call(Cancel(j), Replied(Cancelled))
    ensures i < |w.calls|
    ensures w.calls[i] == Step(c, w, e).calls[i]
         || (e == Api(i, false) && w.calls[i] == Call(Cancel(j), Revoking)
             && j in w.store.rows && IsRevoked(w.store, w.store.rows[j])
             && j in Step(c, w, e).store.rows
             && Step(c, w, e).store.rows[j] == w.store.rows[j].(status := CANCELLED))
  {
    if Enabled(w, e) && e.Api? && e.call == i {
      assert CallOk(c, w.store, w.calls[i]);
    }
  }

  /** Whoever was told "cancelled": the job is committed and revoked, and this very call wrote CANCELLED. */
  lemma {:induction false} CancelledIsTrue(c: Config, es: seq<Event>, i: nat, j: JobId)
    requires i < |Run(c, es).calls| && Run(c, es).calls[i] == Call(Cancel(j), Replied(Cancelled))
    ensures var s := Run(c, es).store; j in s.rows && IsRevoked(s, s.rows[j])
    ensures exists n: nat :: WroteAt(c, es, n, i, j)
  {
    var m := |es| - 1;
    var w := Run(c, es[..m]);
    RunInv(c, es[..m]);
    CancelledStep(c, w, es[m], i, j);
    assert es[..m + 1] == es;
    if w.calls[i] == Run(c, es).calls[i] {
      CancelledIsTrue(c, es[..m], i, j);
      var n: nat :| WroteAt(c, es[..m], n, i, j);
      assert es[..m][..n] == es[..n] && es[..m][..n + 1] == es[..n + 1];
      assert WroteAt(c, es, n, i, j);
    } else {
      assert WroteAt(c, es, m, i, j);
    }
    RowStaysCommitted(c, w, es[m], j);
  }

  /** No other request is ever answered so. */
  lemma {:induction false} OnlyCancelsAreCancelled(c: Config, es: seq<Event>, i: nat)
    requires i < |Run(c, es).calls| && Run(c, es).calls[i].phase == Replied(Cancelled)
    ensures Run(c, es).calls[i].request.Cancel?
  {
    var m := |es| - 1;
    RunInv(c, es[..m]);
    CancelledCall(c, Run(c, es[..m]), es[m], i);
    if Run(c, es[..m]).calls[i].phase == Replied(Cancelled) {
      OnlyCancelsAreCancelled(c, es[..m], i);
    }
  }

  lemma CancelledCall(c: Config, w: World, e: Event, i: nat)
    requires CallsOk(c, w) && i < |Step(c, w, e).calls| && Step(c, w, e).calls[i].phase == Replied(Cancelled)
    ensures i < |w.calls| && Step(c, w, e).calls[i].request == w.calls[i].request
    ensures w.calls[i].request.Cancel? || w.calls[i].phase == Replied(Cancelled)
  {
    if Enabled(w, e) && e.Api? && e.call == i {
      assert CallOk(c, w.store, w.calls[i]);
    }
  }

  // ---------------------------------------------------------------------------
  // DLQ retries
  // ---------------------------------------------------------------------------

  /** A retry call that its read let pass. */
  predicate Passed(p: CallPhase)
  {
    p.Original? || Minted(p).Some?
  }

  /** Only jobs of which a delivery attempted a DLQ send are retried. */
  ghost predicate RetriesJustified(w: World)
  {
    forall i :: 0 <= i < |w.calls| && w.calls[i].request.RetryDlq? && Passed(w.calls[i].phase) ==>
      SomeTried(w.deliveries, w.calls[i].request.job)
  }

  lemma TriedKept(ds: seq<Delivery>, fs: seq<Delivery>, j: JobId)
    requires SomeTried(ds, j) && |ds| <= |fs| && forall i :: 0 <= i < |ds| ==> Later(ds[i], fs[i])
    ensures SomeTried(fs, j)
  {
    var i :| 0 <= i < |ds| && ds[i].msg.job == j && ds[i].tried;
    assert Later(ds[i], fs[i]);
  }

  /** A call passes its read only for a row in DLQ. */
  lemma PassedCall(c: Config, s: Store, call: Call, raises: bool)
    requires call.request.RetryDlq? && Passed(CallStep(c, s, call, raises).1)
    ensures Passed(call.phase) || (call.request.job in s.rows && s.rows[call.request.job].status == DLQ)
  {
  }

  lemma JustifiedRetry(c: Config, w: World, e: Event, i: nat)
    requires HistoriesOk(w) && AllJustified(w) && RetriesJustified(w)
    requires i < |Step(c, w, e).calls|
    requires Step(c, w, e).calls[i].request.RetryDlq? && Passed(Step(c, w, e).calls[i].phase)
    ensures SomeTried(Step(c, w, e).deliveries, Step(c, w, e).calls[i].request.job)
  {
    var v := Step(c, w, e);
    var j := v.calls[i].request.job;
    if Enabled(w, e) && e.Api? && e.call == i {
      PassedCall(c, w.store, w.calls[i], e.raises);
    }
    if j in w.store.rows && w.store.rows[j].status == DLQ {
      assert Justified(w, j, w.store.rows[j]);
    }
    DeliveriesAdvance(c, w, e);
    TriedKept(w.deliveries, v.deliveries, j);
  }

  lemma {:induction false} RunRetriesJustified(c: Config, es: seq<Event>)
    ensures RetriesJustified(Run(c, es))
  {
    if es != [] {
      var w, e := Run(c, es[..|es| - 1]), es[|es| - 1];
      RunRetriesJustified(c, es[..|es| - 1]);
      RunHistories(c, es[..|es| - 1]);
      StatusJustified(c, es[..|es| - 1]);
      forall i | 0 <= i < |Step(c, w, e).calls| && Step(c, w, e).calls[i].request.RetryDlq?
                 && Passed(Step(c, w, e).calls[i].phase)
        ensures SomeTried(Step(c, w, e).deliveries, Step(c, w, e).calls[i].request.job)
      {
        JustifiedRetry(c, w, e, i);
      }
    }
  }

  /** In every reachable state, a job with a DLQ retry is one that some delivery tried to send to the DLQ. */
  lemma OnlyFailedJobsAreRetried(c: Config, es: seq<Event>, j: JobId)
    requires j in Run(c, es).store.rows && Run(c, es).store.rows[j].parent.Some?
    ensures SomeTried(Run(c, es).deliveries, Run(c, es).store.rows[j].parent.value)
  {
    var w := Run(c, es);
    RunInv(c, es);
    RunMakers(c, es);
    RunRetriesJustified(c, es);
    assert HasMaker(w, j);
    var i :| 0 <= i < |w.calls| && Minted(w.calls[i].phase) == Some(j) && MakerDone(w.calls[i].phase);
    assert CallOk(c, w.store, w.calls[i]);
  }
}
