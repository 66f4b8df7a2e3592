/**
 The hooks and requests as they are written, seen as schedules: an attempt or a request that
 nothing interrupts is one particular run of the protocol, so what holds of every run holds of it.
 */
module Uninterrupted {
  import opened JobModel
  import opened Protocol
  import opened ApiInvariant
  import opened BaseTaskModel
  import opened JobServiceModel

  /** The world after `fs`, from `w` on. */
  ghost function Continue(c: Config, w: World, fs: seq<Event>): World
    decreases |fs|
  {
    if fs == [] then w else Continue(c, Step(c, w, fs[0]), fs[1..])
  }

  lemma {:induction false} RunContinues(c: Config, es: seq<Event>, fs: seq<Event>)
    ensures Run(c, es + fs) == Continue(c, Run(c, es), fs)
    decreases |fs|
  {
    if fs == [] {
      assert es + fs == es;
    } else {
      var gs := es + [fs[0]];
      assert es + fs == gs + fs[1..];
      RunContinues(c, gs, fs[1..]);
      OneMoreEvent(c, es, fs[0]);
      assert Continue(c, Run(c, es), fs) == Continue(c, Run(c, gs), fs[1..]);
    }
  }

  lemma LastEvent(c: Config, w: World, e: Event)
    ensures Continue(c, w, [e]) == Step(c, w, e)
  {
    assert [e][1..] == [];
  }

  lemma TwoEvents(c: Config, w: World, e: Event, f: Event, gs: seq<Event>)
    ensures Continue(c, w, [e, f] + gs) == Continue(c, Step(c, Step(c, w, e), f), gs)
    ensures gs == [] ==> [e, f] + gs == [e, f]
  {
    assert ([e, f] + gs)[1..] == [f] + gs;
    assert ([f] + gs)[1..] == gs;
    assert Continue(c, w, [e, f] + gs) == Continue(c, Step(c, w, e), [f] + gs);
  }

  lemma {:induction false} ContinueMore(c: Config, w: World, fs: seq<Event>, gs: seq<Event>)
    ensures Continue(c, w, fs + gs) == Continue(c, Continue(c, w, fs), gs)
    decreases |fs|
  {
    if fs == [] {
      assert fs + gs == gs;
    } else {
      assert (fs + gs)[1..] == fs[1..] + gs;
      ContinueMore(c, Step(c, w, fs[0]), fs[1..], gs);
    }
  }

  // ---------------------------------------------------------------------------
  // Attempts
  // ---------------------------------------------------------------------------

  /** Steps `k` and later of delivery `i`, in a row. */
  ghost function Works(i: nat, xs: seq<Choice>, k: nat): seq<Event>
    decreases |xs| - k
  {
    if k >= |xs| then [] else [Work(i, xs[k])] + Works(i, xs, k + 1)
  }

  lemma {:induction false} WorksAreWork(c: Config, w: World, i: nat, xs: seq<Choice>, k: nat)
    requires i < |w.deliveries|
    ensures var (t, n) := WorkFrom(c, w.store, w.deliveries[i], xs, k);
            Continue(c, w, Works(i, xs, k)) == World(t, w.calls, w.deliveries[i := n])
    decreases |xs| - k
  {
    if k >= |xs| {
      assert w.deliveries[i := w.deliveries[i]] == w.deliveries;
    } else {
      assert Works(i, xs, k)[1..] == Works(i, xs, k + 1);
      WorksUnroll(c, w, i, xs, k);
      WorksAreWork(c, Step(c, w, Work(i, xs[k])), i, xs, k + 1);
    }
  }

  /** The first of these steps. */
  lemma WorksUnroll(c: Config, w: World, i: nat, xs: seq<Choice>, k: nat)
    requires i < |w.deliveries| && k < |xs|
    ensures var v := Step(c, w, Work(i, xs[k]));
            && i < |v.deliveries| && v.calls == w.calls
            && WorkFrom(c, w.store, w.deliveries[i], xs, k) == WorkFrom(c, v.store, v.deliveries[i], xs, k + 1)
            && v.deliveries == w.deliveries[i := v.deliveries[i]]
  {
    if Active(w.deliveries[i]) {
      WorkOne(c, w.store, w.deliveries[i], xs, k);
    } else {
      WorkDone(c, w.store, w.deliveries[i], xs, k);
      WorkDone(c, w.store, w.deliveries[i], xs, k + 1);
    }
  }

  /**
   Deliver a message whose id is not revoked and let nothing interrupt the attempt: it is finished
   after at most 14 steps, with the effect of before_start, run and the hook that Celery calls.
   */
  lemma AttemptIsRun(c: Config, es: seq<Event>, q: nat, xs: seq<Choice>)
    requires |xs| == 14 && Enabled(Run(c, es), Deliver(q))
    requires Run(c, es).store.queue[q].msg.id !in Run(c, es).store.revoked
    ensures var w := Run(c, es); var m := w.store.queue[q].msg; var i := |w.deliveries|;
            var v := Run(c, es + [Deliver(q)] + Works(i, xs, 0));
            var (t, end) := TraceOutcome(c, Take(w.store, q), m, xs);
            && v.store == t && v.calls == w.calls
            && |v.deliveries| == i + 1 && v.deliveries[..i] == w.deliveries
            && v.deliveries[i].phase == Finished(end) && v.deliveries[i].msg == m
  {
    var w, i := Run(c, es), |Run(c, es).deliveries|;
    OneMoreEvent(c, es, Deliver(q));
    RunContinues(c, es + [Deliver(q)], Works(i, xs, 0));
    WorksAreWork(c, Step(c, w, Deliver(q)), i, xs, 0);
    TraceIsWork(c, Take(w.store, q), NewDelivery(w.store, w.store.queue[q].msg), xs);
    WorkKeepsMessage(c, Take(w.store, q), NewDelivery(w.store, w.store.queue[q].msg), xs, 0);
  }

  lemma {:induction false} WorkKeepsMessage(c: Config, s: Store, d: Delivery, xs: seq<Choice>, k: nat)
    ensures WorkFrom(c, s, d, xs, k).1.msg == d.msg
    decreases |xs| - k
  {
    if k < |xs| && Active(d) {
      WorkKeepsMessage(c, Effect(c, s, d.msg, d.phase, xs[k]), Advance(c, s, d, xs[k]), xs, k + 1);
    }
  }

  // ---------------------------------------------------------------------------
  // Requests
  // ---------------------------------------------------------------------------

  /** Steps `n` and later of call `i`, in a row. */
  ghost function Steps(i: nat, n: nat, raiseAt: nat): seq<Event>
    decreases CALL_STEPS - n
  {
    if n >= CALL_STEPS then [] else [Api(i, n == raiseAt)] + Steps(i, n + 1, raiseAt)
  }

  lemma {:induction false} StepsAreCall(c: Config, w: World, i: nat, n: nat, raiseAt: nat)
    requires i < |w.calls|
    ensures var (t, p) := CallFrom(c, w.store, w.calls[i], n, raiseAt);
            Continue(c, w, Steps(i, n, raiseAt)) == World(t, w.calls[i := w.calls[i].(phase := p)], w.deliveries)
    decreases CALL_STEPS - n
  {
    if n >= CALL_STEPS {
      assert w.calls[i := w.calls[i].(phase := w.calls[i].phase)] == w.calls;
    } else {
      assert Steps(i, n, raiseAt)[1..] == Steps(i, n + 1, raiseAt);
      StepsUnroll(c, w, i, n, raiseAt);
      StepsAreCall(c, Step(c, w, Api(i, n == raiseAt)), i, n + 1, raiseAt);
    }
  }

  /** The first of these steps. */
  lemma StepsUnroll(c: Config, w: World, i: nat, n: nat, raiseAt: nat)
    requires i < |w.calls| && n < CALL_STEPS
    ensures var v := Step(c, w, Api(i, n == raiseAt));
            && i < |v.calls| && v.deliveries == w.deliveries
            && CallFrom(c, w.store, w.calls[i], n, raiseAt) == CallFrom(c, v.store, v.calls[i], n + 1, raiseAt)
            && v.calls == w.calls[i := v.calls[i]] && v.calls[i].request == w.calls[i].request
  {
    CallOne(c, w.store, w.calls[i], n, raiseAt);
  }

  /** A request that arrives and is served without interruption, an exception at step `raiseAt` included. */
  lemma RequestIsRun(c: Config, es: seq<Event>, r: Request, raiseAt: nat)
    requires Enabled(Run(c, es), Open(r))
    ensures var w := Run(c, es);
            var (t, p) := CallFrom(c, w.store, Call(r, Opened), 0, raiseAt);
            Run(c, es + [Open(r)] + Steps(|w.calls|, 0, raiseAt)) == World(t, w.calls + [Call(r, p)], w.deliveries)
  {
    var w := Run(c, es);
    OneMoreEvent(c, es, Open(r));
    RunContinues(c, es + [Open(r)], Steps(|w.calls|, 0, raiseAt));
    StepsAreCall(c, Step(c, w, Open(r)), |w.calls|, 0, raiseAt);
  }

  /** A create that runs to its reply. */
  lemma CreateAlone(c: Config, s: Store, task: TaskName, payload: Payload, key: Key)
    requires task in c.allowed && key !in s.index
    ensures var row := NewRow(task, payload, key, 0, None);
            var t := Flush(s, s.uuids, row, 1, Absent).0;
            var (u, p) := Publish(t, s.uuids, row);
            CallFrom(c, s, Call(Create(task, payload, key), Opened), 0, CALL_STEPS)
              == (Commit(u, s.uuids, p.row), Replied(Created(s.uuids, key)))
  {
    var row, call := NewRow(task, payload, key, 0, None), Call(Create(task, payload, key), Opened);
    CallOne(c, s, call, 0, CALL_STEPS);
    CallOne(c, s, call.(phase := Absent), 1, CALL_STEPS);
    InsertedPath(c, Flush(s, s.uuids, row, 1, Absent).0, call.(phase := Flushed(s.uuids, row)), s.uuids, row,
                 CALL_STEPS);
  }

  /** What a create publishes. */
  function FirstMessage(s: Store, task: TaskName, payload: Payload, key: Key): Message
  {
    Message(s.uuids + 1, s.uuids, key, task, payload, 0, s.now)
  }

  /** Job 0 is committed as PENDING, and its message waits. */
  lemma FirstCreated(c: Config, task: TaskName, payload: Payload, key: Key) returns (es: seq<Event>)
    requires task in c.allowed && key.Client?
    ensures var w := Run(c, es); var m := FirstMessage(EMPTY_STORE, task, payload, key);
            && w.store.rows == map[0 := NewRow(task, payload, key, 0, None).(celeryId := Some(1))]
            && w.store.queue == [Envelope(m, FromApi, false)]
            && w.store.index == map[key := 0] && w.store.uuids == 2
            && w.store.cache == map[] && w.store.revoked == {} && w.store.now == 0.0
            && |w.calls| == 1 && w.deliveries == []
  {
    var r := Create(task, payload, key);
    es := [Open(r)] + Steps(0, 0, CALL_STEPS);
    assert [] + [Open(r)] == [Open(r)];
    RequestIsRun(c, [], r, CALL_STEPS);
    CreateAlone(c, EMPTY_STORE, task, payload, key);
  }

  /** The same choice at every step. */
  function Throughout(x: Choice): (xs: seq<Choice>)
    ensures |xs| == 14 && forall i :: 0 <= i < 14 ==> xs[i] == x
  {
    seq(14, _ => x)
  }

  /** Every write works and execute() returns `v`. */
  function Returning(v: JobModel.Value): (xs: seq<Choice>)
    ensures |xs| == 14
  {
    Throughout(Choice(true, true, Success(v)))
  }

  /** An attempt that misses the cache and returns `v`. */
  lemma Misses(c: Config, s: Store, m: Message, v: JobModel.Value)
    requires CheckIdempotency(s, m.key) == None
    ensures TraceOutcome(c, s, m, Returning(v))
         == (Succeeded(c, UpdateJobStatus(s, m.job, RUNNING, Null, true, true), m, v, true), Returned(v, false))
  {
  }

  /** An attempt that hits the cache, whatever execute() would return. */
  lemma Hits(c: Config, s: Store, m: Message, v: JobModel.Value, mine: JobModel.Value)
    requires CheckIdempotency(s, m.key) == Some(v)
    ensures TraceOutcome(c, s, m, Returning(mine))
         == (Succeeded(c, UpdateJobStatus(s, m.job, RUNNING, Null, true, true), m, v, true), Returned(v, true))
  {
  }
}
