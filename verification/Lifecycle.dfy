/**
 The documented lifecycle, and when the system keeps it: in an orderly run each job has exactly one
 live message or attempt until it is finished, its status moves along the lifecycle only, and a
 drained broker leaves every job COMPLETED, DLQ or CANCELLED.
 */
module Lifecycle {
  import opened JobModel
  import opened Protocol
  import opened ApiInvariant
  import opened CreateRace
  import opened Attempts
  import opened JobStatusHistory
  import opened Sums

  // ---------------------------------------------------------------------------
  // Orderly runs
  // ---------------------------------------------------------------------------

  /** A cancel call between its status read and its commit. */
  predicate InWindow(call: Call, j: JobId)
  {
    call.request == Cancel(j) && (call.phase.PendingSeen? || call.phase.Revoking?)
  }

  /**
   As far as job `j` is concerned: no crash and no redelivery, working writes, commit before
   delivery, no cancel overlapping a delivery or cut short. Other jobs may fare as they will.
   */
  ghost predicate Orderly(w: World, e: Event, j: JobId)
  {
    match e
    case Crash(i) => i < |w.deliveries| ==> w.deliveries[i].msg.job != j
    case Redeliver(i) => i < |w.deliveries| ==> w.deliveries[i].msg.job != j
    case Work(i, x) => i < |w.deliveries| && w.deliveries[i].msg.job == j ==> x.dbOk
    case Deliver(q) =>
      Enabled(w, e) && w.store.queue[q].msg.job == j ==>
        j in w.store.rows && forall i :: 0 <= i < |w.calls| ==> !InWindow(w.calls[i], j)
    case Api(i, raises) =>
      i < |w.calls| && w.calls[i].request == Cancel(j) ==>
        && (raises ==> !InWindow(w.calls[i], j))
        && (w.calls[i].phase.Opened? ==>
              forall n :: 0 <= n < |w.deliveries| && w.deliveries[n].msg.job == j ==> !Active(w.deliveries[n]))
    case _ => true
  }

  ghost predicate OrderlyRun(c: Config, es: seq<Event>, j: JobId)
  {
    es != [] ==>
      OrderlyRun(c, es[..|es| - 1], j) && Orderly(Run(c, es[..|es| - 1]), es[|es| - 1], j)
  }

  // ---------------------------------------------------------------------------
  // One token per job
  // ---------------------------------------------------------------------------

  /** A delivery that has not passed its job on: not yet acknowledged, no retry published. */
  predicate Holding(d: Delivery)
  {
    Active(d) && !d.phase.CountingRetry? && d.phase != Acking(Requeued)
  }

  function WaitOf(j: JobId): Envelope -> int
  {
    (e: Envelope) => if !e.taken && e.msg.job == j then 1 else 0
  }

  function HoldOf(j: JobId): Delivery -> int
  {
    (d: Delivery) => if Holding(d) && d.msg.job == j then 1 else 0
  }

  /** Waiting messages plus attempts at work. */
  function Tokens(w: World, j: JobId): int
  {
    Sum(WaitOf(j), w.store.queue) + Sum(HoldOf(j), w.deliveries)
  }

  predicate Terminal(status: Status)
  {
    status == COMPLETED || status == DLQ || status == CANCELLED
  }

  predicate WaitingStatus(retries: nat, status: Status)
  {
    if retries == 0 then status == PENDING || status == CANCELLED else status == RUNNING
  }

  /** The status column while an attempt with this retry number is at this phase. */
  function FlightStatus(retries: nat, p: Phase): Status
  {
    match p
    case Starting => if retries == 0 then PENDING else RUNNING
    case Counting(_, _) => COMPLETED
    case Storing(_, _) => COMPLETED
    case Acking(Returned(_, _)) => COMPLETED
    case DlqSending(pass) => if pass.CeleryCall? then DLQ else RUNNING
    case WritingFailed(pass) => if pass.CeleryCall? then DLQ else RUNNING
    case WritingDlq(_) => FAILED
    case CountingFailed(_) => DLQ
    case Gauging(_) => DLQ
    case Acking(Raised(_)) => DLQ
    case _ => RUNNING
  }

  predicate WaitFits(s: Store, j: JobId, e: Envelope)
  {
    !e.taken && e.msg.job == j ==>
      if j in s.rows then WaitingStatus(e.msg.retries, s.rows[j].status) else e.msg.retries == 0
  }

  predicate HoldFits(s: Store, j: JobId, d: Delivery)
  {
    d.msg.job == j ==>
      && d.life.Alive? && j in s.rows
      && (Holding(d) ==> s.rows[j].status == FlightStatus(d.msg.retries, d.phase))
  }

  predicate CancelFits(s: Store, j: JobId, call: Call)
  {
    InWindow(call, j) ==> j in s.rows && (s.rows[j].status == PENDING || s.rows[j].status == CANCELLED)
  }

  ghost predicate NoHolder(w: World, j: JobId)
  {
    forall n :: 0 <= n < |w.deliveries| && w.deliveries[n].msg.job == j ==> !Holding(w.deliveries[n])
  }

  ghost predicate AnyWindow(w: World, j: JobId)
  {
    exists i :: 0 <= i < |w.calls| && InWindow(w.calls[i], j)
  }

  ghost predicate AnyRevoking(w: World, j: JobId)
  {
    exists i :: 0 <= i < |w.calls| && w.calls[i] == Call(Cancel(j), Revoking)
  }

  ghost predicate RevokedFits(w: World, j: JobId)
  {
    && (forall r :: r in w.store.revoked ==> r < w.store.uuids)
    && (j in w.store.sent && j !in w.store.rows ==> w.store.sent[j].id !in w.store.revoked)
    && (j in w.store.rows && IsRevoked(w.store, w.store.rows[j]) ==>
          w.store.rows[j].status == CANCELLED || AnyRevoking(w, j))
  }

  ghost predicate TokensFit(w: World, j: JobId)
  {
    && (j !in w.store.sent ==> Tokens(w, j) == 0)
    && (j in w.store.sent && j !in w.store.rows ==> Tokens(w, j) == 1)
    && (j in w.store.rows ==> 0 <= Tokens(w, j) <= 1)
    && (j in w.store.rows && Tokens(w, j) == 0 ==> Terminal(w.store.rows[j].status))
  }

  ghost predicate WaitsFit(w: World, j: JobId)
  {
    forall q :: 0 <= q < |w.store.queue| ==> WaitFits(w.store, j, w.store.queue[q])
  }

  ghost predicate HoldsFit(w: World, j: JobId)
  {
    forall i :: 0 <= i < |w.deliveries| ==> HoldFits(w.store, j, w.deliveries[i])
  }

  ghost predicate CancelsFit(w: World, j: JobId)
  {
    && (forall i :: 0 <= i < |w.calls| ==> CancelFits(w.store, j, w.calls[i]))
    && (AnyWindow(w, j) ==> NoHolder(w, j))
  }

  ghost predicate Fits(w: World, j: JobId)
  {
    WaitsFit(w, j) && HoldsFit(w, j) && CancelsFit(w, j) && RevokedFits(w, j) && TokensFit(w, j)
  }

  // ---------------------------------------------------------------------------
  // One token means one place
  // ---------------------------------------------------------------------------

  lemma WaitExcludesHold(w: World, j: JobId, q: nat, i: nat)
    requires q < |w.store.queue| && WaitOf(j)(w.store.queue[q]) == 1
    requires i < |w.deliveries| && HoldOf(j)(w.deliveries[i]) == 1
    ensures Tokens(w, j) >= 2
  {
    SumAtLeast(WaitOf(j), w.store.queue, q);
    SumAtLeast(HoldOf(j), w.deliveries, i);
  }

  lemma HoldExcludesHold(w: World, j: JobId, i: nat, n: nat)
    requires i < |w.deliveries| && n < |w.deliveries| && i != n
    requires HoldOf(j)(w.deliveries[i]) == 1 && HoldOf(j)(w.deliveries[n]) == 1
    ensures Tokens(w, j) >= 2
  {
    if i < n {
      SumAtLeastTwo(HoldOf(j), w.deliveries, i, n);
    } else {
      SumAtLeastTwo(HoldOf(j), w.deliveries, n, i);
    }
    SumNonNegative(WaitOf(j), w.store.queue);
  }

  lemma WaitExcludesWait(w: World, j: JobId, p: nat, q: nat)
    requires p < |w.store.queue| && q < |w.store.queue| && p != q
    requires WaitOf(j)(w.store.queue[p]) == 1 && WaitOf(j)(w.store.queue[q]) == 1
    ensures Tokens(w, j) >= 2
  {
    if p < q {
      SumAtLeastTwo(WaitOf(j), w.store.queue, p, q);
    } else {
      SumAtLeastTwo(WaitOf(j), w.store.queue, q, p);
    }
    SumNonNegative(HoldOf(j), w.deliveries);
  }

  /** With a holder at `i`, the job waits nowhere and nobody else holds it. */
  lemma SoleHolder(w: World, j: JobId, i: nat)
    requires Tokens(w, j) <= 1 && i < |w.deliveries| && HoldOf(j)(w.deliveries[i]) == 1
    ensures forall q :: 0 <= q < |w.store.queue| ==> WaitOf(j)(w.store.queue[q]) == 0
    ensures forall n :: 0 <= n < |w.deliveries| && n != i ==> HoldOf(j)(w.deliveries[n]) == 0
    ensures Tokens(w, j) == 1
  {
    forall q | 0 <= q < |w.store.queue| ensures WaitOf(j)(w.store.queue[q]) == 0 {
      if WaitOf(j)(w.store.queue[q]) == 1 {
        WaitExcludesHold(w, j, q, i);
      }
    }
    forall n | 0 <= n < |w.deliveries| && n != i ensures HoldOf(j)(w.deliveries[n]) == 0 {
      if HoldOf(j)(w.deliveries[n]) == 1 {
        HoldExcludesHold(w, j, i, n);
      }
    }
    SumAtLeast(HoldOf(j), w.deliveries, i);
    SumNonNegative(WaitOf(j), w.store.queue);
  }

  /** With the job waiting at `q`, it waits nowhere else and nobody holds it. */
  lemma SoleWaiter(w: World, j: JobId, q: nat)
    requires Tokens(w, j) <= 1 && q < |w.store.queue| && WaitOf(j)(w.store.queue[q]) == 1
    ensures forall p :: 0 <= p < |w.store.queue| && p != q ==> WaitOf(j)(w.store.queue[p]) == 0
    ensures forall n :: 0 <= n < |w.deliveries| ==> HoldOf(j)(w.deliveries[n]) == 0
    ensures Tokens(w, j) == 1
  {
    forall p | 0 <= p < |w.store.queue| && p != q ensures WaitOf(j)(w.store.queue[p]) == 0 {
      if WaitOf(j)(w.store.queue[p]) == 1 {
        WaitExcludesWait(w, j, p, q);
      }
    }
    forall n | 0 <= n < |w.deliveries| ensures HoldOf(j)(w.deliveries[n]) == 0 {
      if HoldOf(j)(w.deliveries[n]) == 1 {
        WaitExcludesHold(w, j, q, n);
      }
    }
    SumAtLeast(WaitOf(j), w.store.queue, q);
    SumNonNegative(HoldOf(j), w.deliveries);
  }

  // ---------------------------------------------------------------------------
  // Delivery
  // ---------------------------------------------------------------------------

  /** Outside a cancel's window, a revoked job is CANCELLED. */
  lemma RevokedIsCancelled(c: Config, w: World, q: nat, j: JobId)
    requires QueueOk(c, w.store) && SentOk(w.store) && RevokedFits(w, j) && j in w.store.rows
    requires forall i :: 0 <= i < |w.calls| ==> !InWindow(w.calls[i], j)
    requires q < |w.store.queue| && w.store.queue[q].msg.job == j && w.store.queue[q].msg.id in w.store.revoked
    ensures w.store.rows[j].status == CANCELLED
  {
    assert MessageOk(c, w.store, w.store.queue[q].msg) && RowSent(w.store, j, w.store.rows[j]);
  }

  lemma CancelledIsRevoked(c: Config, w: World, q: nat, j: JobId)
    requires QueueOk(c, w.store) && SentOk(w.store) && AllJustified(w)
    requires j in w.store.rows && w.store.rows[j].status == CANCELLED
    requires q < |w.store.queue| && w.store.queue[q].msg.job == j
    ensures w.store.queue[q].msg.id in w.store.revoked
  {
    assert MessageOk(c, w.store, w.store.queue[q].msg) && RowSent(w.store, j, w.store.rows[j]);
    assert Justified(w, j, w.store.rows[j]);
  }

  lemma DeliverTokens(c: Config, w: World, q: nat, j: JobId)
    requires Enabled(w, Deliver(q))
    ensures var m := w.store.queue[q].msg; var v := Step(c, w, Deliver(q));
            Tokens(v, j) == Tokens(w, j) - if m.job == j && m.id in w.store.revoked then 1 else 0
  {
    SumUpdate(WaitOf(j), w.store.queue, q, w.store.queue[q].(taken := true));
    SumAppend(HoldOf(j), w.deliveries, NewDelivery(w.store, w.store.queue[q].msg));
  }

  lemma DeliverFits(c: Config, w: World, q: nat, j: JobId)
    requires QueueOk(c, w.store) && SentOk(w.store) && AllJustified(w) && Fits(w, j)
    requires Enabled(w, Deliver(q)) && Orderly(w, Deliver(q), j)
    ensures Fits(Step(c, w, Deliver(q)), j)
  {
    var m := w.store.queue[q].msg;
    var v := Step(c, w, Deliver(q));
    DeliverTokens(c, w, q, j);
    if m.job == j {
      assert WaitFits(w.store, j, w.store.queue[q]);
      if m.id in w.store.revoked {
        RevokedIsCancelled(c, w, q, j);
      } else if w.store.rows[j].status == CANCELLED {
        CancelledIsRevoked(c, w, q, j);
      }
      SoleWaiter(w, j, q);
    }
    forall n | 0 <= n < |v.deliveries| ensures HoldFits(v.store, j, v.deliveries[n]) {
      if n < |w.deliveries| {
        assert HoldFits(w.store, j, w.deliveries[n]);
      }
    }
    forall p | 0 <= p < |v.store.queue| ensures WaitFits(v.store, j, v.store.queue[p]) {
      assert WaitFits(w.store, j, w.store.queue[p]);
    }
    CallsStay(w, v, j);
  }

  /** Steps that move no call, row or revocation keep what the calls owe. */
  lemma CallsStay(w: World, v: World, j: JobId)
    requires CancelsFit(w, j) && RevokedFits(w, j) && v.calls == w.calls
    requires v.store.rows == w.store.rows && v.store.revoked == w.store.revoked
    requires v.store.sent == w.store.sent && v.store.uuids == w.store.uuids
    requires AnyWindow(w, j) ==> NoHolder(v, j)
    ensures CancelsFit(v, j) && RevokedFits(v, j)
  {
    forall i | 0 <= i < |v.calls| ensures CancelFits(v.store, j, v.calls[i]) {
      assert CancelFits(w.store, j, w.calls[i]);
    }
    if AnyRevoking(w, j) {
      var i :| 0 <= i < |w.calls| && w.calls[i] == Call(Cancel(j), Revoking);
      assert v.calls[i] == Call(Cancel(j), Revoking);
    }
  }

  // ---------------------------------------------------------------------------
  // Worker steps
  // ---------------------------------------------------------------------------

  /** The status column follows the phase. */
  lemma StatusFollows(c: Config, s: Store, d: Delivery, x: Choice)
    requires Holding(d) && d.msg.job in s.rows && x.dbOk
    requires s.rows[d.msg.job].status == FlightStatus(d.msg.retries, d.phase)
    ensures var t := Effect(c, s, d.msg, d.phase, x); var n := Advance(c, s, d, x);
            && d.msg.job in t.rows
            && (Holding(n) ==> t.rows[d.msg.job].status == FlightStatus(d.msg.retries, n.phase))
            && (!Holding(n) ==> if d.phase.Requeueing? then t.rows[d.msg.job].status == RUNNING
                                else t.rows[d.msg.job].status == COMPLETED || t.rows[d.msg.job].status == DLQ)
  {
    if Updates(d.phase) {
      UpdateFollows(c, s, d, x);
    } else {
      OtherEffects(c, s, d.msg, d.phase, x);
    }
  }

  lemma UpdateFollows(c: Config, s: Store, d: Delivery, x: Choice)
    requires Holding(d) && d.msg.job in s.rows && x.dbOk && Updates(d.phase)
    ensures var t := Effect(c, s, d.msg, d.phase, x); var n := Advance(c, s, d, x);
            && d.msg.job in t.rows && Holding(n)
            && t.rows[d.msg.job].status == FlightStatus(d.msg.retries, n.phase)
  {
    if d.phase.Starting? || d.phase.Completing? {
    } else if d.phase.WritingFailed? {
    } else {
    }
  }

  lemma WorkTokens(c: Config, w: World, i: nat, x: Choice, j: JobId)
    requires Enabled(w, Work(i, x))
    ensures var d := w.deliveries[i]; var v := Step(c, w, Work(i, x));
            Tokens(v, j) == Tokens(w, j) - HoldOf(j)(d) + HoldOf(j)(v.deliveries[i])
              + if d.phase.Requeueing? && d.msg.job == j then 1 else 0
  {
    var d := w.deliveries[i];
    EffectPublishes(c, w.store, d.msg, d.phase, x);
    SumUpdate(HoldOf(j), w.deliveries, i, Advance(c, w.store, d, x));
    SumAppend(WaitOf(j), w.store.queue, Envelope(NextRetry(d.msg, w.store.now), FromRetry, false));
  }

  /** A step of another job's delivery. */
  lemma ForeignWorkFits(c: Config, w: World, i: nat, x: Choice, j: JobId)
    requires Fits(w, j) && Enabled(w, Work(i, x)) && w.deliveries[i].msg.job != j
    ensures Fits(Step(c, w, Work(i, x)), j)
  {
    var d, v := w.deliveries[i], Step(c, w, Work(i, x));
    EffectFrame(c, w.store, d.msg, d.phase, x);
    EffectPublishes(c, w.store, d.msg, d.phase, x);
    WorkTokens(c, w, i, x, j);
    forall n | 0 <= n < |v.deliveries| ensures HoldFits(v.store, j, v.deliveries[n]) {
      assert HoldFits(w.store, j, w.deliveries[n]);
    }
    forall p | 0 <= p < |v.store.queue| ensures WaitFits(v.store, j, v.store.queue[p]) {
      if p < |w.store.queue| {
        assert WaitFits(w.store, j, w.store.queue[p]);
      }
    }
    RowStays(w, v, j);
  }

  /** As CallsStay, when only this job's row is known to stay. */
  lemma RowStays(w: World, v: World, j: JobId)
    requires CancelsFit(w, j) && RevokedFits(w, j) && v.calls == w.calls
    requires j in w.store.rows <==> j in v.store.rows
    requires j in w.store.rows ==> v.store.rows[j] == w.store.rows[j]
    requires v.store.revoked == w.store.revoked
    requires v.store.sent == w.store.sent && v.store.uuids == w.store.uuids
    requires AnyWindow(w, j) ==> NoHolder(v, j)
    ensures CancelsFit(v, j) && RevokedFits(v, j)
  {
    forall i | 0 <= i < |v.calls| ensures CancelFits(v.store, j, v.calls[i]) {
      assert CancelFits(w.store, j, w.calls[i]);
    }
    if AnyRevoking(w, j) {
      var i :| 0 <= i < |w.calls| && w.calls[i] == Call(Cancel(j), Revoking);
      assert v.calls[i] == Call(Cancel(j), Revoking);
    }
  }

  /** After a step of the sole holder, the row fits wherever the job now is. */
  lemma HolderPlaces(c: Config, w: World, v: World, i: nat, x: Choice, j: JobId)
    requires WaitsFit(w, j) && HoldsFit(w, j) && Enabled(w, Work(i, x)) && x.dbOk && v == Step(c, w, Work(i, x))
    requires w.deliveries[i].msg.job == j && Holding(w.deliveries[i]) && Tokens(w, j) <= 1
    ensures WaitsFit(v, j) && HoldsFit(v, j)
  {
    var d := w.deliveries[i];
    assert HoldFits(w.store, j, d);
    SoleHolder(w, j, i);
    StatusFollows(c, w.store, d, x);
    EffectFrame(c, w.store, d.msg, d.phase, x);
    EffectPublishes(c, w.store, d.msg, d.phase, x);
    forall n | 0 <= n < |v.deliveries| ensures HoldFits(v.store, j, v.deliveries[n]) {
      assert HoldFits(w.store, j, w.deliveries[n]);
      if n != i {
        assert HoldOf(j)(w.deliveries[n]) == 0;
      }
    }
    forall p | 0 <= p < |v.store.queue| ensures WaitFits(v.store, j, v.store.queue[p]) {
      if p < |w.store.queue| {
        assert WaitOf(j)(w.store.queue[p]) == 0;
      }
    }
  }

  /** A step of the job's holder. */
  lemma HolderWorkFits(c: Config, w: World, i: nat, x: Choice, j: JobId)
    requires SentOk(w.store) && Fits(w, j) && Enabled(w, Work(i, x)) && x.dbOk
    requires w.deliveries[i].msg.job == j && Holding(w.deliveries[i])
    ensures Fits(Step(c, w, Work(i, x)), j)
  {
    var d, v := w.deliveries[i], Step(c, w, Work(i, x));
    HolderPlaces(c, w, v, i, x, j);
    HolderTokens(c, w, v, i, x, j);
    assert HoldFits(w.store, j, d);
    assert w.store.rows[j].status != CANCELLED;
    EffectFrame(c, w.store, d.msg, d.phase, x);
    HolderCalls(w, v, j, i);
  }

  /** The holder keeps the job's token, publishes it anew, or finishes the job. */
  lemma HolderTokens(c: Config, w: World, v: World, i: nat, x: Choice, j: JobId)
    requires SentOk(w.store) && HoldsFit(w, j) && TokensFit(w, j) && Enabled(w, Work(i, x)) && x.dbOk
    requires v == Step(c, w, Work(i, x)) && w.deliveries[i].msg.job == j && Holding(w.deliveries[i])
    ensures TokensFit(v, j)
  {
    var d := w.deliveries[i];
    assert HoldFits(w.store, j, d);
    assert RowSent(w.store, j, w.store.rows[j]);
    SoleHolder(w, j, i);
    StatusFollows(c, w.store, d, x);
    EffectFrame(c, w.store, d.msg, d.phase, x);
    WorkTokens(c, w, i, x, j);
  }

  /** A job with a holder is in no cancel's window, and not revoked. */
  lemma HolderCalls(w: World, v: World, j: JobId, i: nat)
    requires CancelsFit(w, j) && RevokedFits(w, j) && v.calls == w.calls
    requires i < |w.deliveries| && w.deliveries[i].msg.job == j && Holding(w.deliveries[i])
    requires j in w.store.rows && j in v.store.rows && w.store.rows[j].status != CANCELLED
    requires SameFixed(w.store.rows[j], v.store.rows[j])
    requires v.store.revoked == w.store.revoked && v.store.sent == w.store.sent && v.store.uuids == w.store.uuids
    ensures CancelsFit(v, j) && RevokedFits(v, j)
  {
    assert !AnyWindow(w, j);
    forall n | 0 <= n < |v.calls| ensures !InWindow(v.calls[n], j) {
      assert !InWindow(w.calls[n], j);
    }
  }

  /** The last steps of a delivery that has already published its retry. */
  lemma TailWorkFits(c: Config, w: World, i: nat, x: Choice, j: JobId)
    requires Fits(w, j) && Enabled(w, Work(i, x)) && w.deliveries[i].msg.job == j && !Holding(w.deliveries[i])
    ensures Fits(Step(c, w, Work(i, x)), j)
  {
    var d, v := w.deliveries[i], Step(c, w, Work(i, x));
    assert HoldFits(w.store, j, d);
    OtherEffects(c, w.store, d.msg, d.phase, x);
    EffectPublishes(c, w.store, d.msg, d.phase, x);
    WorkTokens(c, w, i, x, j);
    forall n | 0 <= n < |v.deliveries| ensures HoldFits(v.store, j, v.deliveries[n]) {
      assert HoldFits(w.store, j, w.deliveries[n]);
    }
    forall p | 0 <= p < |v.store.queue| ensures WaitFits(v.store, j, v.store.queue[p]) {
      assert WaitFits(w.store, j, w.store.queue[p]);
    }
    RowStays(w, v, j);
  }

  lemma WorkFits(c: Config, w: World, i: nat, x: Choice, j: JobId)
    requires SentOk(w.store) && Fits(w, j) && Enabled(w, Work(i, x)) && (w.deliveries[i].msg.job == j ==> x.dbOk)
    ensures Fits(Step(c, w, Work(i, x)), j)
  {
    if w.deliveries[i].msg.job != j {
      ForeignWorkFits(c, w, i, x, j);
    } else if Holding(w.deliveries[i]) {
      HolderWorkFits(c, w, i, x, j);
    } else {
      TailWorkFits(c, w, i, x, j);
    }
  }

  // ---------------------------------------------------------------------------
  // Cancel calls
  // ---------------------------------------------------------------------------

  /** The read of a cancel of this job. */
  lemma CancelReadFits(c: Config, w: World, i: nat, raises: bool, j: JobId)
    requires Fits(w, j) && i < |w.calls| && Orderly(w, Api(i, raises), j)
    requires w.calls[i].request == Cancel(j) && w.calls[i].phase.Opened?
    ensures Fits(Step(c, w, Api(i, raises)), j)
  {
    var v := Step(c, w, Api(i, raises));
    assert v.store == w.store;
    assert NoHolder(w, j);
    forall n | 0 <= n < |v.calls| ensures CancelFits(v.store, j, v.calls[n]) {
      assert CancelFits(w.store, j, w.calls[n]);
    }
    RevokingKept(w, v, i, j);
  }

  /** A call that was not revoking leaves the revoking ones as they are. */
  lemma RevokingKept(w: World, v: World, i: nat, j: JobId)
    requires i < |w.calls| && |v.calls| == |w.calls| && w.calls[i] != Call(Cancel(j), Revoking)
    requires forall n :: 0 <= n < |w.calls| && n != i ==> v.calls[n] == w.calls[n]
    ensures AnyRevoking(w, j) ==> AnyRevoking(v, j)
  {
    if AnyRevoking(w, j) {
      var n :| 0 <= n < |w.calls| && w.calls[n] == Call(Cancel(j), Revoking);
      assert v.calls[n] == Call(Cancel(j), Revoking);
    }
  }

  lemma CancelRevokeFits(c: Config, w: World, i: nat, j: JobId)
    requires Fits(w, j) && i < |w.calls| && DrawnOk(w.store) && SentOk(w.store) && CallOk(c, w.store, w.calls[i])
    requires w.calls[i].request == Cancel(j) && w.calls[i].phase.PendingSeen?
    ensures Fits(Step(c, w, Api(i, false)), j)
  {
    var v := Step(c, w, Api(i, false));
    assert RowSent(w.store, j, w.store.rows[j]);
    assert v.calls[i] == Call(Cancel(j), Revoking);
    assert AnyRevoking(v, j);
    assert InWindow(w.calls[i], j);
    assert AnyWindow(w, j);
    forall n | 0 <= n < |v.calls| ensures CancelFits(v.store, j, v.calls[n]) {
      assert CancelFits(w.store, j, w.calls[n]);
    }
    PlacesStay(w, v, j);
  }

  /** Waiters and holders fit as before when their job's row and their sequences stay. */
  lemma PlacesStay(w: World, v: World, j: JobId)
    requires WaitsFit(w, j) && HoldsFit(w, j) && v.deliveries == w.deliveries && v.store.queue == w.store.queue
    requires j in w.store.rows <==> j in v.store.rows
    requires j in w.store.rows ==> v.store.rows[j] == w.store.rows[j]
    ensures WaitsFit(v, j) && HoldsFit(v, j)
  {
    forall n | 0 <= n < |v.deliveries| ensures HoldFits(v.store, j, v.deliveries[n]) {
      assert HoldFits(w.store, j, w.deliveries[n]);
    }
    forall p | 0 <= p < |v.store.queue| ensures WaitFits(v.store, j, v.store.queue[p]) {
      assert WaitFits(w.store, j, w.store.queue[p]);
    }
  }

  lemma CancelCommitFits(c: Config, w: World, i: nat, j: JobId)
    requires Fits(w, j) && i < |w.calls| && w.calls[i] == Call(Cancel(j), Revoking)
    ensures Fits(Step(c, w, Api(i, false)), j)
  {
    var v := Step(c, w, Api(i, false));
    assert InWindow(w.calls[i], j) && CancelFits(w.store, j, w.calls[i]);
    assert AnyWindow(w, j);
    assert v.store.rows[j].status == CANCELLED;
    forall n | 0 <= n < |v.deliveries| ensures HoldFits(v.store, j, v.deliveries[n]) {
      assert HoldFits(w.store, j, w.deliveries[n]);
    }
    forall p | 0 <= p < |v.store.queue| ensures WaitFits(v.store, j, v.store.queue[p]) {
      assert WaitFits(w.store, j, w.store.queue[p]);
    }
    forall n | 0 <= n < |v.calls| ensures CancelFits(v.store, j, v.calls[n]) {
      assert CancelFits(w.store, j, w.calls[n]);
    }
  }

  // ---------------------------------------------------------------------------
  // Other calls
  // ---------------------------------------------------------------------------

  /** What a call on anything but this job's cancellation may do to this job. */
  ghost predicate Untouched(s: Store, t: Store, j: JobId)
  {
    && t.queue == s.queue && t.sent == s.sent && s.uuids <= t.uuids
    && (j in s.rows <==> j in t.rows) && (j in s.rows ==> t.rows[j] == s.rows[j])
    && (forall r :: r in t.revoked ==> r < t.uuids)
    && (j in s.sent && s.sent[j].id in t.revoked ==> s.sent[j].id in s.revoked)
  }

  lemma UntouchedFits(w: World, v: World, i: nat, j: JobId)
    requires Fits(w, j) && SentOk(w.store) && Untouched(w.store, v.store, j) && v.deliveries == w.deliveries
    requires i < |w.calls| && |v.calls| == |w.calls|
    requires forall n :: 0 <= n < |w.calls| && n != i ==> v.calls[n] == w.calls[n]
    requires w.calls[i] != Call(Cancel(j), Revoking) && !InWindow(v.calls[i], j)
    ensures Fits(v, j)
  {
    PlacesStay(w, v, j);
    RevokingKept(w, v, i, j);
    if j in w.store.rows {
      assert RowSent(w.store, j, w.store.rows[j]);
    }
    forall n | 0 <= n < |v.calls| ensures CancelFits(v.store, j, v.calls[n]) {
      if n != i {
        assert CancelFits(w.store, j, w.calls[n]);
      }
    }
    if AnyWindow(v, j) {
      var n :| 0 <= n < |v.calls| && InWindow(v.calls[n], j);
      assert InWindow(w.calls[n], j);
    }
  }

  lemma RaiseUntouches(s: Store, call: Call, j: JobId)
    requires forall r :: r in s.revoked ==> r < s.uuids
    ensures Untouched(s, CallRaises(s, call).0, j)
  {
  }

  /** A cancel of another job revokes another message. */
  lemma CancelUntouches(c: Config, s: Store, call: Call, j: JobId)
    requires DrawnOk(s) && SentOk(s) && CallOk(c, s, call)
    requires forall r :: r in s.revoked ==> r < s.uuids
    requires call.request.Cancel? && call.request.job != j
    ensures Untouched(s, CallProceeds(c, s, call).0, j)
  {
    if call.phase.PendingSeen? {
      assert RowSent(s, call.request.job, s.rows[call.request.job]);
    }
  }

  lemma InsertUntouches(c: Config, s: Store, call: Call, j: JobId)
    requires CallOk(c, s, call) && !call.request.Cancel?
    requires forall r :: r in s.revoked ==> r < s.uuids
    requires !call.phase.Flushed? && !(call.phase.Sent? && call.phase.id == j)
    ensures Untouched(s, CallProceeds(c, s, call).0, j)
  {
  }

  /** A publication of another job's message. */
  lemma PublishFits(c: Config, w: World, i: nat, j: JobId)
    requires Fits(w, j) && DrawnOk(w.store) && SentOk(w.store) && i < |w.calls|
    requires CallOk(c, w.store, w.calls[i]) && w.calls[i].phase.Flushed?
    requires w.calls[i].phase.id !in w.store.rows
    ensures Fits(Step(c, w, Api(i, false)), j)
  {
    var v := Step(c, w, Api(i, false));
    var id := w.calls[i].phase.id;
    var e := v.store.queue[|w.store.queue|];
    assert v.store.queue == w.store.queue + [e] && !e.taken && e.msg.job == id && e.msg.retries == 0;
    SumAppend(WaitOf(j), w.store.queue, e);
    forall p | 0 <= p < |v.store.queue| ensures WaitFits(v.store, j, v.store.queue[p]) {
      if p < |w.store.queue| {
        assert WaitFits(w.store, j, w.store.queue[p]);
      }
    }
    forall n | 0 <= n < |v.deliveries| ensures HoldFits(v.store, j, v.deliveries[n]) {
      assert HoldFits(w.store, j, w.deliveries[n]);
    }
    PublishCalls(c, w, v, i, j);
  }

  lemma PublishCalls(c: Config, w: World, v: World, i: nat, j: JobId)
    requires CancelsFit(w, j) && RevokedFits(w, j) && i < |w.calls| && w.calls[i].phase.Flushed?
    requires DrawnOk(w.store) && v == Step(c, w, Api(i, false)) && w.calls[i].phase.id !in w.store.rows
    ensures CancelsFit(v, j) && RevokedFits(v, j)
  {
    RevokingKept(w, v, i, j);
    forall n | 0 <= n < |v.calls| ensures CancelFits(v.store, j, v.calls[n]) {
      assert CancelFits(w.store, j, w.calls[n]);
    }
    if AnyWindow(v, j) {
      var n :| 0 <= n < |v.calls| && InWindow(v.calls[n], j);
      assert InWindow(w.calls[n], j);
    }
  }

  /** The commit of this job: its message waits, nobody has touched it. */
  lemma CommitFits(c: Config, w: World, i: nat, j: JobId)
    requires Fits(w, j) && i < |w.calls| && CallOk(c, w.store, w.calls[i])
    requires w.calls[i].phase.Sent? && w.calls[i].phase.id == j && j !in w.store.rows
    ensures Fits(Step(c, w, Api(i, false)), j)
  {
    var v := Step(c, w, Api(i, false));
    var row := v.store.rows[j];
    assert row.status == PENDING && RowSent(w.store, j, row);
    forall p | 0 <= p < |v.store.queue| ensures WaitFits(v.store, j, v.store.queue[p]) {
      assert WaitFits(w.store, j, w.store.queue[p]);
    }
    forall n | 0 <= n < |v.deliveries| ensures HoldFits(v.store, j, v.deliveries[n]) {
      assert HoldFits(w.store, j, w.deliveries[n]);
    }
    forall n | 0 <= n < |v.calls| ensures !InWindow(v.calls[n], j) {
      assert CancelFits(w.store, j, w.calls[n]);
    }
  }

  lemma IdleCancelFits(c: Config, w: World, i: nat, raises: bool, j: JobId)
    requires SentOk(w.store) && Fits(w, j) && i < |w.calls|
    requires w.calls[i].request == Cancel(j) && (w.calls[i].phase.Replied? || w.calls[i].phase.Aborted?)
    ensures Fits(Step(c, w, Api(i, raises)), j)
  {
    var v := Step(c, w, Api(i, raises));
    assert v.store == w.store;
    UntouchedFits(w, v, i, j);
  }

  lemma CancelFitsAll(c: Config, w: World, i: nat, raises: bool, j: JobId)
    requires StoreOk(c, w.store) && CallsOk(c, w) && Fits(w, j) && i < |w.calls| && Orderly(w, Api(i, raises), j)
    requires w.calls[i].request == Cancel(j)
    ensures Fits(Step(c, w, Api(i, raises)), j)
  {
    var p := w.calls[i].phase;
    assert CallOk(c, w.store, w.calls[i]);
    if p.Opened? {
      CancelReadFits(c, w, i, raises, j);
    } else if p.PendingSeen? {
      CancelRevokeFits(c, w, i, j);
    } else if p.Revoking? {
      CancelCommitFits(c, w, i, j);
    } else {
      IdleCancelFits(c, w, i, raises, j);
    }
  }

  lemma OtherCallFits(c: Config, w: World, i: nat, raises: bool, j: JobId)
    requires StoreOk(c, w.store) && CallsOk(c, w) && Fits(w, j) && i < |w.calls|
    requires w.calls[i].request != Cancel(j)
    requires raises || (!w.calls[i].phase.Flushed? && !(w.calls[i].phase.Sent? && w.calls[i].phase.id == j))
    ensures Fits(Step(c, w, Api(i, raises)), j)
  {
    var v := Step(c, w, Api(i, raises));
    assert CallOk(c, w.store, w.calls[i]);
    if raises {
      RaiseUntouches(w.store, w.calls[i], j);
    } else if w.calls[i].request.Cancel? {
      CancelUntouches(c, w.store, w.calls[i], j);
    } else {
      InsertUntouches(c, w.store, w.calls[i], j);
    }
    UntouchedFits(w, v, i, j);
  }

  lemma ApiFits(c: Config, w: World, i: nat, raises: bool, j: JobId)
    requires StoreOk(c, w.store) && CallsOk(c, w) && Fits(w, j) && i < |w.calls| && Orderly(w, Api(i, raises), j)
    ensures Fits(Step(c, w, Api(i, raises)), j)
  {
    var call := w.calls[i];
    assert CallOk(c, w.store, call);
    if call.request == Cancel(j) {
      CancelFitsAll(c, w, i, raises, j);
    } else if call.phase.Flushed? && !raises {
      PublishFits(c, w, i, j);
    } else if call.phase.Sent? && call.phase.id == j && !raises {
      CommitFits(c, w, i, j);
    } else {
      OtherCallFits(c, w, i, raises, j);
    }
  }

  // ---------------------------------------------------------------------------
  // Every orderly run
  // ---------------------------------------------------------------------------

  lemma QuietFits(c: Config, w: World, e: Event, j: JobId)
    requires Fits(w, j) && Enabled(w, e) && (e.Open? || e.Tick?)
    ensures Fits(Step(c, w, e), j)
  {
    var v := Step(c, w, e);
    PlacesStay(w, v, j);
    forall n | 0 <= n < |v.calls| ensures CancelFits(v.store, j, v.calls[n]) {
      if n < |w.calls| {
        assert CancelFits(w.store, j, w.calls[n]);
      }
    }
    if AnyWindow(v, j) {
      var n :| 0 <= n < |v.calls| && InWindow(v.calls[n], j);
      assert InWindow(w.calls[n], j);
    }
    if AnyRevoking(w, j) {
      var n :| 0 <= n < |w.calls| && w.calls[n] == Call(Cancel(j), Revoking);
      assert v.calls[n] == Call(Cancel(j), Revoking);
    }
  }

  /** A crash or redelivery of another job's delivery: what it changes is not this job's. */
  lemma ForeignChange(c: Config, w: World, e: Event, j: JobId)
    requires Enabled(w, e) && (e.Crash? || e.Redeliver?) && w.deliveries[e.delivery].msg.job != j
    ensures var v := Step(c, w, e); var i := e.delivery;
            && v.deliveries == w.deliveries[i := v.deliveries[i]] && v.deliveries[i].msg.job != j
            && v.calls == w.calls && v.store == w.store.(queue := v.store.queue)
            && (v.store.queue == w.store.queue
                || v.store.queue == w.store.queue + [Envelope(w.deliveries[i].msg, FromRedelivery, false)])
  {
  }

  lemma ForeignTokens(w: World, v: World, i: nat, j: JobId)
    requires i < |w.deliveries| && w.deliveries[i].msg.job != j && i < |v.deliveries| && v.deliveries[i].msg.job != j
    requires v.deliveries == w.deliveries[i := v.deliveries[i]]
    requires v.store.queue == w.store.queue
          || v.store.queue == w.store.queue + [Envelope(w.deliveries[i].msg, FromRedelivery, false)]
    ensures Tokens(v, j) == Tokens(w, j)
  {
    SumUpdate(HoldOf(j), w.deliveries, i, v.deliveries[i]);
    SumAppend(WaitOf(j), w.store.queue, Envelope(w.deliveries[i].msg, FromRedelivery, false));
  }

  lemma ForeignFits(c: Config, w: World, e: Event, j: JobId)
    requires Fits(w, j) && Enabled(w, e) && (e.Crash? || e.Redeliver?) && w.deliveries[e.delivery].msg.job != j
    ensures Fits(Step(c, w, e), j)
  {
    var v := Step(c, w, e);
    ForeignChange(c, w, e, j);
    ForeignTokens(w, v, e.delivery, j);
    forall n | 0 <= n < |v.deliveries| ensures HoldFits(v.store, j, v.deliveries[n]) {
      assert HoldFits(w.store, j, w.deliveries[n]);
    }
    forall p | 0 <= p < |v.store.queue| ensures WaitFits(v.store, j, v.store.queue[p]) {
      if p < |w.store.queue| {
        assert WaitFits(w.store, j, w.store.queue[p]);
      }
    }
    CallsStay(w, v, j);
  }

  lemma StepFits(c: Config, w: World, e: Event, j: JobId)
    requires Inv(c, w) && AllJustified(w) && Fits(w, j) && Orderly(w, e, j)
    ensures Fits(Step(c, w, e), j)
  {
    if Enabled(w, e) {
      match e
      case Deliver(q) => DeliverFits(c, w, q, j);
      case Work(i, x) => WorkFits(c, w, i, x, j);
      case Api(i, raises) => ApiFits(c, w, i, raises, j);
      case Crash(_) => ForeignFits(c, w, e, j);
      case Redeliver(_) => ForeignFits(c, w, e, j);
      case _ => QuietFits(c, w, e, j);
    }
  }

  lemma {:induction false} RunFits(c: Config, es: seq<Event>, j: JobId)
    requires OrderlyRun(c, es, j)
    ensures Fits(Run(c, es), j)
  {
    if es == [] {
    } else {
      RunFits(c, es[..|es| - 1], j);
      RunInv(c, es[..|es| - 1]);
      StatusJustified(c, es[..|es| - 1]);
      StepFits(c, Run(c, es[..|es| - 1]), es[|es| - 1], j);
    }
  }

  /**
   In an orderly run a committed job has exactly one live message or attempt, or else it is
   finished: COMPLETED, DLQ or CANCELLED.
   */
  lemma OneTokenOrFinished(c: Config, es: seq<Event>, j: JobId)
    requires OrderlyRun(c, es, j) && j in Run(c, es).store.rows
    ensures var w := Run(c, es);
            Tokens(w, j) == 1 || (Tokens(w, j) == 0 && Terminal(w.store.rows[j].status))
  {
    RunFits(c, es, j);
  }

  /** No message of the job waits and no worker is busy with it. */
  ghost predicate Drained(w: World, j: JobId)
  {
    && (forall q :: 0 <= q < |w.store.queue| && w.store.queue[q].msg.job == j ==> w.store.queue[q].taken)
    && (forall i :: 0 <= i < |w.deliveries| && w.deliveries[i].msg.job == j ==> !Active(w.deliveries[i]))
  }

  /** Once the broker is drained of a job whose run was orderly, it is COMPLETED, DLQ or CANCELLED. */
  lemma DrainedIsFinished(c: Config, es: seq<Event>, j: JobId)
    requires OrderlyRun(c, es, j) && Drained(Run(c, es), j) && j in Run(c, es).store.rows
    ensures Terminal(Run(c, es).store.rows[j].status)
  {
    var w := Run(c, es);
    RunFits(c, es, j);
    SumZero(WaitOf(j), w.store.queue);
    SumZero(HoldOf(j), w.deliveries);
  }

  // ---------------------------------------------------------------------------
  // Refinement of the documented lifecycle
  // ---------------------------------------------------------------------------

  ghost predicate HasHolder(w: World, j: JobId)
  {
    exists i :: 0 <= i < |w.deliveries| && w.deliveries[i].msg.job == j && Holding(w.deliveries[i])
  }

  /** The job as seen at delivery boundaries: RUNNING while an attempt holds it, its status otherwise. */
  ghost function Visible(w: World, j: JobId): Option<Status>
  {
    if j !in w.store.rows then None
    else if HasHolder(w, j) then Some(RUNNING)
    else Some(w.store.rows[j].status)
  }

  /** PENDING -> RUNNING -> COMPLETED | (FAILED ->) DLQ, PENDING -> CANCELLED. */
  predicate LifecycleEdge(a: Option<Status>, b: Option<Status>)
  {
    || a == b
    || (a == None && b == Some(PENDING))
    || (a == Some(PENDING) && (b == Some(RUNNING) || b == Some(CANCELLED)))
    || (a == Some(RUNNING) && (b == Some(COMPLETED) || b == Some(DLQ)))
  }

  /** A job whose row and deliveries stay looks the same. */
  lemma VisibleStays(w: World, v: World, j: JobId)
    requires j in w.store.rows <==> j in v.store.rows
    requires j in w.store.rows ==> v.store.rows[j] == w.store.rows[j]
    requires HasHolder(w, j) <==> HasHolder(v, j)
    ensures Visible(w, j) == Visible(v, j)
  {
  }

  lemma DeliverEdge(c: Config, w: World, q: nat, j: JobId)
    requires QueueOk(c, w.store) && SentOk(w.store) && AllJustified(w) && Fits(w, j)
    requires Enabled(w, Deliver(q)) && Orderly(w, Deliver(q), j)
    ensures LifecycleEdge(Visible(w, j), Visible(Step(c, w, Deliver(q)), j))
  {
    var m, v := w.store.queue[q].msg, Step(c, w, Deliver(q));
    if HasHolder(w, j) {
      var i :| 0 <= i < |w.deliveries| && w.deliveries[i].msg.job == j && Holding(w.deliveries[i]);
      assert v.deliveries[i] == w.deliveries[i];
    }
    if m.job == j {
      assert WaitFits(w.store, j, w.store.queue[q]);
      if m.id in w.store.revoked {
        RevokedIsCancelled(c, w, q, j);
      } else {
        if w.store.rows[j].status == CANCELLED {
          CancelledIsRevoked(c, w, q, j);
        }
        assert Holding(v.deliveries[|w.deliveries|]);
      }
    }
  }

  lemma HolderEdge(c: Config, w: World, i: nat, x: Choice, j: JobId)
    requires Fits(w, j) && Enabled(w, Work(i, x)) && x.dbOk
    requires w.deliveries[i].msg.job == j && Holding(w.deliveries[i])
    ensures LifecycleEdge(Visible(w, j), Visible(Step(c, w, Work(i, x)), j))
  {
    var d, v := w.deliveries[i], Step(c, w, Work(i, x));
    assert HoldFits(w.store, j, d);
    assert Visible(w, j) == Some(RUNNING);
    SoleHolder(w, j, i);
    StatusFollows(c, w.store, d, x);
    EffectFrame(c, w.store, d.msg, d.phase, x);
    if Holding(v.deliveries[i]) {
      assert HasHolder(v, j);
    } else {
      forall n | 0 <= n < |v.deliveries| && v.deliveries[n].msg.job == j ensures !Holding(v.deliveries[n]) {
        if n != i {
          assert HoldOf(j)(w.deliveries[n]) == 0;
        }
      }
      assert !HasHolder(v, j);
    }
  }

  lemma OtherWorkEdge(c: Config, w: World, i: nat, x: Choice, j: JobId)
    requires Enabled(w, Work(i, x)) && HoldsFit(w, j)
    requires w.deliveries[i].msg.job != j || !Holding(w.deliveries[i])
    ensures Visible(w, j) == Visible(Step(c, w, Work(i, x)), j)
  {
    var d, v := w.deliveries[i], Step(c, w, Work(i, x));
    EffectFrame(c, w.store, d.msg, d.phase, x);
    if d.msg.job == j {
      assert HoldFits(w.store, j, d);
      OtherEffects(c, w.store, d.msg, d.phase, x);
    }
    if HasHolder(w, j) {
      var n :| 0 <= n < |w.deliveries| && w.deliveries[n].msg.job == j && Holding(w.deliveries[n]);
      assert v.deliveries[n] == w.deliveries[n];
    }
    VisibleStays(w, v, j);
  }

  lemma ApiEdge(c: Config, w: World, i: nat, raises: bool, j: JobId)
    requires Inv(c, w) && Fits(w, j) && i < |w.calls|
    ensures LifecycleEdge(Visible(w, j), Visible(Step(c, w, Api(i, raises)), j))
  {
    var v := Step(c, w, Api(i, raises));
    assert v.deliveries == w.deliveries && CallOk(c, w.store, w.calls[i]);
    if j in w.store.rows {
      RowStaysCommitted(c, w, Api(i, raises), j);
    }
    if j in v.store.rows {
      CallRows(c, w.store, w.calls[i], raises, j);
      RowEdge(w, v, i, j);
    }
  }

  /** A call commits a job nobody holds yet, cancels one nobody holds, or leaves the job alone. */
  lemma RowEdge(w: World, v: World, i: nat, j: JobId)
    requires HoldsFit(w, j) && CancelsFit(w, j) && i < |w.calls| && v.deliveries == w.deliveries && j in v.store.rows
    requires j in w.store.rows && v.store.rows[j] != w.store.rows[j] ==>
               InWindow(w.calls[i], j) && v.store.rows[j].status == CANCELLED
    requires j !in w.store.rows ==> v.store.rows[j].status == PENDING
    ensures LifecycleEdge(Visible(w, j), Visible(v, j))
  {
    if j !in w.store.rows {
      assert !HasHolder(v, j) by {
        assert forall n :: 0 <= n < |w.deliveries| && w.deliveries[n].msg.job == j ==>
                 HoldFits(w.store, j, w.deliveries[n]);
      }
    } else if v.store.rows[j] != w.store.rows[j] {
      assert CancelFits(w.store, j, w.calls[i]);
      assert AnyWindow(w, j);
      assert !HasHolder(w, j);
    }
  }

  lemma ForeignEdge(c: Config, w: World, e: Event, j: JobId)
    requires Enabled(w, e) && (e.Crash? || e.Redeliver?) && w.deliveries[e.delivery].msg.job != j
    ensures Visible(w, j) == Visible(Step(c, w, e), j)
  {
    var v := Step(c, w, e);
    ForeignChange(c, w, e, j);
    if HasHolder(w, j) {
      var n :| 0 <= n < |w.deliveries| && w.deliveries[n].msg.job == j && Holding(w.deliveries[n]);
      assert v.deliveries[n] == w.deliveries[n];
    }
    VisibleStays(w, v, j);
  }

  lemma QuietEdge(c: Config, w: World, e: Event, j: JobId)
    requires Enabled(w, e) && (e.Open? || e.Tick?)
    ensures Visible(w, j) == Visible(Step(c, w, e), j)
  {
    VisibleStays(w, Step(c, w, e), j);
  }

  /** Every event of an orderly run moves every job along the documented lifecycle, or not at all. */
  lemma RefinesLifecycle(c: Config, es: seq<Event>, j: JobId)
    requires es != [] && OrderlyRun(c, es, j)
    ensures LifecycleEdge(Visible(Run(c, es[..|es| - 1]), j), Visible(Run(c, es), j))
  {
    var w, e := Run(c, es[..|es| - 1]), es[|es| - 1];
    RunFits(c, es[..|es| - 1], j);
    RunInv(c, es[..|es| - 1]);
    StatusJustified(c, es[..|es| - 1]);
    if Enabled(w, e) {
      match e
      case Deliver(q) => DeliverEdge(c, w, q, j);
      case Work(i, x) =>
        if w.deliveries[i].msg.job == j && Holding(w.deliveries[i]) {
          HolderEdge(c, w, i, x, j);
        } else {
          OtherWorkEdge(c, w, i, x, j);
        }
      case Api(i, raises) => ApiEdge(c, w, i, raises, j);
      case Crash(_) => ForeignEdge(c, w, e, j);
      case Redeliver(_) => ForeignEdge(c, w, e, j);
      case _ => QuietEdge(c, w, e, j);
    }
  }

  // ---------------------------------------------------------------------------
  // The status column
  // ---------------------------------------------------------------------------

  /** The second on_failure of a ValidationError, Celery's own, is about to write FAILED over DLQ. */
  predicate SecondFailure(w: World, e: Event, j: JobId)
  {
    && Enabled(w, e) && e.Work? && w.deliveries[e.delivery].msg.job == j
    && w.deliveries[e.delivery].phase == WritingFailed(CeleryCall)
  }

  /** The documented moves of the column itself, FAILED included. */
  predicate ColumnMove(a: Status, b: Status)
  {
    || a == b
    || (a == PENDING && (b == RUNNING || b == CANCELLED))
    || (a == RUNNING && (b == COMPLETED || b == FAILED))
    || (a == FAILED && b == DLQ)
  }

  /** The column after a step of the job's holder. */
  lemma HolderColumn(c: Config, s: Store, d: Delivery, x: Choice)
    requires Holding(d) && d.msg.job in s.rows && x.dbOk
    requires s.rows[d.msg.job].status == FlightStatus(d.msg.retries, d.phase)
    ensures var a := s.rows[d.msg.job].status; var t := Effect(c, s, d.msg, d.phase, x);
            && d.msg.job in t.rows
            && if d.phase == WritingFailed(CeleryCall) then a == DLQ && t.rows[d.msg.job].status == FAILED
               else ColumnMove(a, t.rows[d.msg.job].status)
  {
    if !Updates(d.phase) {
      OtherEffects(c, s, d.msg, d.phase, x);
    }
  }

  lemma WorkColumn(c: Config, w: World, i: nat, x: Choice, j: JobId)
    requires HoldsFit(w, j) && Enabled(w, Work(i, x)) && Orderly(w, Work(i, x), j) && j in w.store.rows
    ensures var a := w.store.rows[j].status; var t := Step(c, w, Work(i, x)).store;
            && j in t.rows
            && if SecondFailure(w, Work(i, x), j) then a == DLQ && t.rows[j].status == FAILED
               else ColumnMove(a, t.rows[j].status)
  {
    var d := w.deliveries[i];
    EffectFrame(c, w.store, d.msg, d.phase, x);
    if d.msg.job == j {
      assert HoldFits(w.store, j, d);
      if Holding(d) {
        HolderColumn(c, w.store, d, x);
      } else {
        OtherEffects(c, w.store, d.msg, d.phase, x);
      }
    }
  }

  lemma ApiColumn(c: Config, w: World, i: nat, raises: bool, j: JobId)
    requires Inv(c, w) && CancelsFit(w, j) && i < |w.calls| && j in w.store.rows
    ensures var t := Step(c, w, Api(i, raises)).store;
            j in t.rows && ColumnMove(w.store.rows[j].status, t.rows[j].status)
  {
    RowStaysCommitted(c, w, Api(i, raises), j);
    assert CallOk(c, w.store, w.calls[i]);
    CallRows(c, w.store, w.calls[i], raises, j);
    if w.calls[i].phase.Revoking? && w.calls[i].request.job == j {
      assert CancelFits(w.store, j, w.calls[i]);
    }
  }

  /**
   The column moves along the documented lifecycle in every orderly run, except that it falls back
   from DLQ to FAILED exactly when Celery's on_failure call after a ValidationError writes it.
   */
  lemma ColumnFollowsLifecycle(c: Config, es: seq<Event>, j: JobId)
    requires es != [] && OrderlyRun(c, es, j) && j in Run(c, es[..|es| - 1]).store.rows
    ensures var w, v := Run(c, es[..|es| - 1]), Run(c, es); var a := w.store.rows[j].status;
            && j in v.store.rows
            && (ColumnMove(a, v.store.rows[j].status) || (a == DLQ && v.store.rows[j].status == FAILED))
            && ((a == DLQ && v.store.rows[j].status == FAILED) <==> SecondFailure(w, es[|es| - 1], j))
  {
    RunFits(c, es[..|es| - 1], j);
    RunInv(c, es[..|es| - 1]);
    ColumnStep(c, Run(c, es[..|es| - 1]), es[|es| - 1], j);
  }

  lemma ColumnStep(c: Config, w: World, e: Event, j: JobId)
    requires Inv(c, w) && Fits(w, j) && Orderly(w, e, j) && j in w.store.rows
    ensures var t := Step(c, w, e).store; var a := w.store.rows[j].status;
            && j in t.rows
            && if SecondFailure(w, e, j) then a == DLQ && t.rows[j].status == FAILED
               else ColumnMove(a, t.rows[j].status)
  {
    if Enabled(w, e) && e.Work? {
      WorkColumn(c, w, e.delivery, e.x, j);
    } else if Enabled(w, e) && e.Api? {
      ApiColumn(c, w, e.call, e.raises, j);
    }
  }
}
