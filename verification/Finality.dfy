/**
 When a terminal status is final. The status writes are unconditional, so COMPLETED, DLQ and
 CANCELLED are not absorbing as such; each is, exactly when nothing is left that could overwrite it.
 */
module Finality {
  import opened JobModel
  import opened Protocol
  import opened ApiInvariant
  import opened Attempts
  import opened JobStatusHistory
  import opened Termination
  import opened Cancellation
  import opened Lifecycle
  import opened Uninterrupted

  // ---------------------------------------------------------------------------
  // What can still overwrite a status
  // ---------------------------------------------------------------------------

  /** A delivery at this phase can still write a status other than `st`. */
  predicate CanLeave(st: Status, p: Phase)
  {
    && WriteAhead(p)
    && !(st == COMPLETED && p.Completing?)
    && !(st == DLQ && p.WritingDlq? && !p.pass.OwnCall?)
  }

  predicate Threat(d: Delivery, j: JobId, st: Status)
  {
    d.msg.job == j && Active(d) && CanLeave(st, d.phase)
  }

  predicate Copy(e: Envelope, j: JobId)
  {
    e.msg.job == j && !e.taken
  }

  /** The broker still answers for this delivery's message. */
  predicate Returnable(d: Delivery, j: JobId)
  {
    d.msg.job == j && Unacked(d) && !d.life.Reclaimed?
  }

  /** No message of the job is left with the broker. */
  ghost predicate NoCopies(w: World, j: JobId)
  {
    && (forall q :: 0 <= q < |w.store.queue| ==> !Copy(w.store.queue[q], j))
    && (forall i :: 0 <= i < |w.deliveries| ==> !Returnable(w.deliveries[i], j))
  }

  /**
   Nothing can overwrite the status of job `j`: no delivery at work has another status ahead of it,
   no message of the job can start one, and no cancel has read PENDING and not yet answered.
   */
  ghost predicate Final(w: World, j: JobId)
    requires j in w.store.rows
  {
    var row := w.store.rows[j];
    && (forall i :: 0 <= i < |w.deliveries| ==> !Threat(w.deliveries[i], j, row.status))
    && (IsRevoked(w.store, row) || NoCopies(w, j))
    && (row.status == CANCELLED || forall n :: 0 <= n < |w.calls| ==> !InWindow(w.calls[n], j))
  }

  // ---------------------------------------------------------------------------
  // Final stays final
  // ---------------------------------------------------------------------------

  /** A delivery that is no threat writes no other status and becomes no threat. */
  lemma HarmlessStep(c: Config, s: Store, d: Delivery, x: Choice, j: JobId)
    requires j in s.rows && Terminal(s.rows[j].status)
    requires d.msg.job == j && Active(d) && !CanLeave(s.rows[j].status, d.phase)
    ensures var t := Effect(c, s, d.msg, d.phase, x);
            && j in t.rows && t.rows[j].status == s.rows[j].status
            && !CanLeave(s.rows[j].status, Advance(c, s, d, x).phase)
  {
    if !Updates(d.phase) {
      OtherEffects(c, s, d.msg, d.phase, x);
    }
  }

  lemma FinalWork(c: Config, w: World, i: nat, x: Choice, j: JobId)
    requires Enabled(w, Work(i, x)) && j in w.store.rows && Terminal(w.store.rows[j].status) && Final(w, j)
    ensures var v := Step(c, w, Work(i, x));
            j in v.store.rows && v.store.rows[j].status == w.store.rows[j].status && Final(v, j)
  {
    var d, v := w.deliveries[i], Step(c, w, Work(i, x));
    EffectFrame(c, w.store, d.msg, d.phase, x);
    EffectPublishes(c, w.store, d.msg, d.phase, x);
    if d.msg.job == j {
      assert !Threat(d, j, w.store.rows[j].status);
      HarmlessStep(c, w.store, d, x, j);
      assert Returnable(d, j);
    }
    forall n | 0 <= n < |v.deliveries| ensures !Threat(v.deliveries[n], j, w.store.rows[j].status) {
      assert !Threat(w.deliveries[n], j, w.store.rows[j].status);
    }
    if !IsRevoked(w.store, w.store.rows[j]) {
      forall n | 0 <= n < |v.deliveries| ensures !Returnable(v.deliveries[n], j) {
        assert !Returnable(w.deliveries[n], j);
      }
    }
  }

  /** Calls publish nothing for a committed job. */
  lemma CallCopies(c: Config, s: Store, call: Call, raises: bool, j: JobId)
    requires SentOk(s) && CallOk(c, s, call) && j in s.rows
    ensures var t := CallStep(c, s, call, raises).0;
            || t.queue == s.queue
            || (|t.queue| == |s.queue| + 1 && t.queue[..|s.queue|] == s.queue && t.queue[|s.queue|].msg.job != j)
  {
    assert RowSent(s, j, s.rows[j]);
  }

  /** No call enters the window of a job that is not PENDING. */
  lemma CallWindow(c: Config, s: Store, call: Call, raises: bool, j: JobId)
    requires j in s.rows && s.rows[j].status != PENDING && !InWindow(call, j)
    ensures !InWindow(call.(phase := CallStep(c, s, call, raises).1), j)
  {
  }

  lemma FinalApi(c: Config, w: World, i: nat, raises: bool, j: JobId)
    requires Inv(c, w) && i < |w.calls| && j in w.store.rows && Terminal(w.store.rows[j].status) && Final(w, j)
    ensures var v := Step(c, w, Api(i, raises));
            j in v.store.rows && v.store.rows[j].status == w.store.rows[j].status && Final(v, j)
  {
    var (t, p) := CallStep(c, w.store, w.calls[i], raises);
    assert CallOk(c, w.store, w.calls[i]);
    assert w.store.rows[j].status == CANCELLED || !InWindow(w.calls[i], j);
    RowStaysCommitted(c, w, Api(i, raises), j);
    CallStatus(c, w.store, t, w.calls[i], raises, j);
    FinalCall(c, w, t, p, i, raises, j);
  }

  lemma FinalCall(c: Config, w: World, t: Store, p: CallPhase, i: nat, raises: bool, j: JobId)
    requires SentOk(w.store) && i < |w.calls| && CallOk(c, w.store, w.calls[i]) && j in w.store.rows
    requires Terminal(w.store.rows[j].status) && Final(w, j) && (t, p) == CallStep(c, w.store, w.calls[i], raises)
    requires j in t.rows && t.rows[j].status == w.store.rows[j].status
    requires t.rows[j].celeryId == w.store.rows[j].celeryId && w.store.revoked <= t.revoked
    ensures Final(World(t, w.calls[i := w.calls[i].(phase := p)], w.deliveries), j)
  {
    CallCopies(c, w.store, w.calls[i], raises, j);
    if w.store.rows[j].status != CANCELLED {
      assert !InWindow(w.calls[i], j);
      CallWindow(c, w.store, w.calls[i], raises, j);
    }
    FinalAfterCall(w, World(t, w.calls[i := w.calls[i].(phase := p)], w.deliveries), i, j);
  }

  /** A call writes a status only to cancel, and is then in its window. */
  lemma CallStatus(c: Config, s: Store, t: Store, call: Call, raises: bool, j: JobId)
    requires IndexOk(s) && CallOk(c, s, call) && j in s.rows && t == CallStep(c, s, call, raises).0 && j in t.rows
    requires s.rows[j].status == CANCELLED || !InWindow(call, j)
    ensures t.rows[j].status == s.rows[j].status
  {
    CallRows(c, s, call, raises, j);
  }

  lemma FinalAfterCall(w: World, v: World, i: nat, j: JobId)
    requires j in w.store.rows && Final(w, j) && i < |w.calls|
    requires j in v.store.rows && v.store.rows[j].status == w.store.rows[j].status
    requires v.store.rows[j].celeryId == w.store.rows[j].celeryId && w.store.revoked <= v.store.revoked
    requires v.deliveries == w.deliveries && |v.calls| == |w.calls|
    requires forall n :: 0 <= n < |w.calls| && n != i ==> v.calls[n] == w.calls[n]
    requires w.store.rows[j].status != CANCELLED ==> !InWindow(v.calls[i], j)
    requires v.store.queue == w.store.queue
          || (|v.store.queue| == |w.store.queue| + 1 && v.store.queue[..|w.store.queue|] == w.store.queue
              && v.store.queue[|w.store.queue|].msg.job != j)
    ensures Final(v, j)
  {
    if !IsRevoked(w.store, w.store.rows[j]) {
      assert NoCopies(w, j);
      forall q | 0 <= q < |v.store.queue| ensures !Copy(v.store.queue[q], j) {
        if q < |w.store.queue| {
          assert v.store.queue[q] == w.store.queue[q] && !Copy(w.store.queue[q], j);
        }
      }
    }
  }

  /** Delivery of a message of the job: only a revoked one is left, and it is discarded. */
  lemma FinalDeliver(c: Config, w: World, q: nat, j: JobId)
    requires Inv(c, w) && Enabled(w, Deliver(q)) && j in w.store.rows && Final(w, j)
    ensures Final(Step(c, w, Deliver(q)), j)
  {
    assert MessageOk(c, w.store, w.store.queue[q].msg) && RowSent(w.store, j, w.store.rows[j]);
    assert Copy(w.store.queue[q], j) || w.store.queue[q].msg.job != j;
    var v := Step(c, w, Deliver(q));
    forall i | 0 <= i < |v.deliveries| ensures !Threat(v.deliveries[i], j, w.store.rows[j].status) {
      if i < |w.deliveries| {
        assert !Threat(w.deliveries[i], j, w.store.rows[j].status);
      }
    }
    if !IsRevoked(w.store, w.store.rows[j]) {
      CopiesGone(w, v, q, j);
    }
  }

  lemma CopiesGone(w: World, v: World, q: nat, j: JobId)
    requires NoCopies(w, j) && q < |w.store.queue| && w.store.queue[q].msg.job != j
    requires v.store.queue == w.store.queue[q := w.store.queue[q].(taken := true)]
    requires |v.deliveries| == |w.deliveries| + 1 && v.deliveries[..|w.deliveries|] == w.deliveries
    requires v.deliveries[|w.deliveries|].msg == w.store.queue[q].msg
    ensures NoCopies(v, j)
  {
    forall p | 0 <= p < |v.store.queue| ensures !Copy(v.store.queue[p], j) {
      assert !Copy(w.store.queue[p], j);
    }
    forall i | 0 <= i < |v.deliveries| ensures !Returnable(v.deliveries[i], j) {
      if i < |w.deliveries| {
        assert v.deliveries[i] == w.deliveries[i] && !Returnable(w.deliveries[i], j);
      }
    }
  }

  lemma FinalBroker(c: Config, w: World, e: Event, j: JobId)
    requires Enabled(w, e) && (e.Crash? || e.Redeliver? || e.Tick? || e.Open?) && j in w.store.rows && Final(w, j)
    ensures Final(Step(c, w, e), j)
  {
    var v, st := Step(c, w, e), w.store.rows[j].status;
    forall i | 0 <= i < |v.deliveries| ensures !Threat(v.deliveries[i], j, st) {
      assert !Threat(w.deliveries[i], j, st);
    }
    if !IsRevoked(w.store, w.store.rows[j]) {
      if e.Redeliver? {
        assert !Returnable(w.deliveries[e.delivery], j);
      }
      forall i | 0 <= i < |v.deliveries| ensures !Returnable(v.deliveries[i], j) {
        assert !Returnable(w.deliveries[i], j);
      }
      forall q | 0 <= q < |v.store.queue| ensures !Copy(v.store.queue[q], j) {
        if q < |w.store.queue| {
          assert !Copy(w.store.queue[q], j);
        }
      }
    }
  }

  lemma FinalStep(c: Config, w: World, e: Event, j: JobId)
    requires Inv(c, w) && j in w.store.rows && Terminal(w.store.rows[j].status) && Final(w, j)
    ensures var v := Step(c, w, e);
            j in v.store.rows && v.store.rows[j].status == w.store.rows[j].status && Final(v, j)
  {
    if Enabled(w, e) {
      match e
      case Api(i, raises) => FinalApi(c, w, i, raises, j);
      case Work(i, x) => FinalWork(c, w, i, x, j);
      case Deliver(q) => FinalDeliver(c, w, q, j);
      case _ => FinalBroker(c, w, e, j);
    }
  }

  ghost predicate KeepsStatus(w: World, v: World, j: JobId)
  {
    j in w.store.rows && j in v.store.rows && v.store.rows[j].status == w.store.rows[j].status
  }

  lemma {:induction false} FinalForever(c: Config, w: World, fs: seq<Event>, j: JobId)
    requires Inv(c, w) && j in w.store.rows && Terminal(w.store.rows[j].status) && Final(w, j)
    ensures KeepsStatus(w, Continue(c, w, fs), j)
    decreases |fs|
  {
    if fs != [] {
      FinalStep(c, w, fs[0], j);
      StepInv(c, w, fs[0]);
      FinalForever(c, Step(c, w, fs[0]), fs[1..], j);
    }
  }

  // ---------------------------------------------------------------------------
  // What is not final can be overwritten
  // ---------------------------------------------------------------------------

  /** The outcome that leads away from a status. */
  function Away(st: Status): Choice
  {
    Choice(true, true, if st == COMPLETED then ValidationError else Success(Null))
  }

  lemma ThreatStep(c: Config, s: Store, d: Delivery, j: JobId, st: Status)
    requires Terminal(st) && Threat(d, j, st) && j in s.rows
    requires st == COMPLETED && d.phase.Checking? ==> CheckIdempotency(s, d.msg.key) == None
    ensures var t := Effect(c, s, d.msg, d.phase, Away(st)); var n := Advance(c, s, d, Away(st));
            && j in t.rows
            && (t.rows[j].status != st || (Threat(n, j, st) && StepsLeft(n.phase) < StepsLeft(d.phase)))
  {
    if Updates(d.phase) {
      ThreatWrites(c, s, d, j, st);
    } else {
      OtherEffects(c, s, d.msg, d.phase, Away(st));
    }
  }

  lemma ThreatWrites(c: Config, s: Store, d: Delivery, j: JobId, st: Status)
    requires Terminal(st) && Threat(d, j, st) && j in s.rows && Updates(d.phase)
    ensures var t := Effect(c, s, d.msg, d.phase, Away(st)); var n := Advance(c, s, d, Away(st));
            && j in t.rows
            && (t.rows[j].status != st || (Threat(n, j, st) && StepsLeft(n.phase) < StepsLeft(d.phase)))
  {
    if d.phase.WritingDlq? {
    } else {
    }
  }

  /** Time after which an entry has expired. */
  function UntilExpiry(s: Store, key: Key): real
  {
    if key in s.cache && s.now < s.cache[key].expires then s.cache[key].expires - s.now else 0.0
  }

  /** A delivery with another status ahead of it gets there, once the cache no longer holds it back. */
  lemma {:induction false} ThreatActs(c: Config, w: World, i: nat, j: JobId, st: Status) returns (fs: seq<Event>)
    requires i < |w.deliveries| && Terminal(st) && Threat(w.deliveries[i], j, st) && j in w.store.rows
    ensures var v := Continue(c, w, fs); j in v.store.rows && v.store.rows[j].status != st
    decreases StepsLeft(w.deliveries[i].phase)
  {
    var wait, work := Tick(UntilExpiry(w.store, w.deliveries[i].msg.key)), Work(i, Away(st));
    var u := Step(c, w, wait);
    var v := Step(c, u, work);
    ThreatStep(c, u.store, w.deliveries[i], j, st);
    TwoEvents(c, w, wait, work, []);
    if v.store.rows[j].status != st {
      fs := [wait, work];
    } else {
      var gs := ThreatActs(c, v, i, j, st);
      fs := [wait, work] + gs;
      TwoEvents(c, w, wait, work, gs);
    }
  }

  /** Time after which a message is due. */
  function UntilDue(s: Store, m: Message): real
  {
    if m.eta > s.now then m.eta - s.now else 0.0
  }

  /** Once due, a waiting message of a job that is not revoked is taken up. */
  lemma CopyStarts(c: Config, w: World, q: nat, j: JobId)
    requires Inv(c, w) && j in w.store.rows && !IsRevoked(w.store, w.store.rows[j])
    requires q < |w.store.queue| && Copy(w.store.queue[q], j)
    ensures var u := Step(c, Step(c, w, Tick(UntilDue(w.store, w.store.queue[q].msg))), Deliver(q));
            && j in u.store.rows && |u.deliveries| == |w.deliveries| + 1
            && u.deliveries[|w.deliveries|].msg.job == j && Active(u.deliveries[|w.deliveries|])
            && u.deliveries[|w.deliveries|].phase.Starting?
  {
    assert MessageOk(c, w.store, w.store.queue[q].msg) && RowSent(w.store, j, w.store.rows[j]);
  }

  const START_WORK := Choice(true, true, OtherError)

  lemma StartWrites(c: Config, w: World, i: nat, j: JobId)
    requires i < |w.deliveries| && Active(w.deliveries[i]) && w.deliveries[i].phase.Starting?
    requires w.deliveries[i].msg.job == j && j in w.store.rows
    ensures var v := Step(c, w, Work(i, START_WORK)); j in v.store.rows && v.store.rows[j].status == RUNNING
  {
  }

  /** A waiting message of a job that is not revoked starts an attempt, which writes RUNNING. */
  lemma CopyActs(c: Config, w: World, q: nat, j: JobId) returns (fs: seq<Event>)
    requires Inv(c, w) && j in w.store.rows && !IsRevoked(w.store, w.store.rows[j])
    requires q < |w.store.queue| && Copy(w.store.queue[q], j)
    ensures var v := Continue(c, w, fs); j in v.store.rows && v.store.rows[j].status == RUNNING
  {
    var wait := Tick(UntilDue(w.store, w.store.queue[q].msg));
    var start := Work(|w.deliveries|, START_WORK);
    fs := [wait, Deliver(q)] + [start];
    TwoEvents(c, w, wait, Deliver(q), [start]);
    CopyStarts(c, w, q, j);
    var u := Step(c, Step(c, w, wait), Deliver(q));
    StartWrites(c, u, |w.deliveries|, j);
    LastEvent(c, u, start);
  }

  /** An unacknowledged message comes back. */
  lemma ReturnableIsCopied(c: Config, w: World, i: nat, j: JobId)
    requires i < |w.deliveries| && Returnable(w.deliveries[i], j)
    ensures var u := Step(c, w, Redeliver(i));
            && |u.store.queue| == |w.store.queue| + 1 && Copy(u.store.queue[|w.store.queue|], j)
            && u.store.rows == w.store.rows && u.store.revoked == w.store.revoked
  {
  }

  lemma ReturnableActs(c: Config, w: World, i: nat, j: JobId) returns (fs: seq<Event>)
    requires Inv(c, w) && j in w.store.rows && !IsRevoked(w.store, w.store.rows[j])
    requires i < |w.deliveries| && Returnable(w.deliveries[i], j)
    ensures var v := Continue(c, w, fs); j in v.store.rows && v.store.rows[j].status == RUNNING
  {
    var e := Redeliver(i);
    StepInv(c, w, e);
    ReturnableIsCopied(c, w, i, j);
    var gs := CopyActs(c, Step(c, w, e), |w.store.queue|, j);
    fs := [e] + gs;
    assert fs[1..] == gs;
  }

  /** A cancel that has read PENDING writes CANCELLED without looking again. */
  lemma WindowActs(c: Config, w: World, n: nat, j: JobId) returns (fs: seq<Event>)
    requires j in w.store.rows && n < |w.calls| && InWindow(w.calls[n], j)
    ensures var v := Continue(c, w, fs); j in v.store.rows && v.store.rows[j].status == CANCELLED
  {
    var e := Api(n, false);
    if w.calls[n].phase.Revoking? {
      fs := [e];
      LastEvent(c, w, e);
    } else {
      fs := [e, e] + [];
      TwoEvents(c, w, e, e, []);
    }
  }

  lemma NotFinalActs(c: Config, w: World, j: JobId) returns (fs: seq<Event>)
    requires Inv(c, w) && j in w.store.rows && Terminal(w.store.rows[j].status) && !Final(w, j)
    ensures !KeepsStatus(w, Continue(c, w, fs), j)
  {
    var row := w.store.rows[j];
    if i :| 0 <= i < |w.deliveries| && Threat(w.deliveries[i], j, row.status) {
      fs := ThreatActs(c, w, i, j, row.status);
    } else if row.status != CANCELLED && exists n :: 0 <= n < |w.calls| && InWindow(w.calls[n], j) {
      var n :| 0 <= n < |w.calls| && InWindow(w.calls[n], j);
      fs := WindowActs(c, w, n, j);
    } else if q :| 0 <= q < |w.store.queue| && Copy(w.store.queue[q], j) {
      fs := CopyActs(c, w, q, j);
    } else {
      var i :| 0 <= i < |w.deliveries| && Returnable(w.deliveries[i], j);
      fs := ReturnableActs(c, w, i, j);
    }
  }

  /**
   A terminal status stays in every continuation exactly when the job is final: no delivery at work
   has another status ahead of it, the job is revoked or the broker holds none of its messages, and
   no cancel is between its read and its write (unless the status is CANCELLED already).
   */
  lemma TerminalIsFinalIff(c: Config, es: seq<Event>, j: JobId)
    requires j in Run(c, es).store.rows && Terminal(Run(c, es).store.rows[j].status)
    ensures (forall fs :: KeepsStatus(Run(c, es), Run(c, es + fs), j)) <==> Final(Run(c, es), j)
  {
    RunInv(c, es);
    if Final(Run(c, es), j) {
      forall fs ensures KeepsStatus(Run(c, es), Run(c, es + fs), j) {
        RunContinues(c, es, fs);
        FinalForever(c, Run(c, es), fs, j);
      }
    } else {
      var fs := NotFinalActs(c, Run(c, es), j);
      RunContinues(c, es, fs);
      assert !KeepsStatus(Run(c, es), Run(c, es + fs), j);
    }
  }
}
