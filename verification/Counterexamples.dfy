/**
 Runs that refute claims the system does not keep: a rolled-back create can decide another job's
 result, terminal statuses can be overwritten, and a duplicate create can end in an error.
 */
module Counterexamples {
  import opened JobModel
  import opened Protocol
  import opened ApiInvariant
  import opened BaseTaskModel
  import opened JobServiceModel
  import opened Uninterrupted
  import opened Lifecycle
  import opened Finality

  /** A create whose commit raises: its message stays out. */
  lemma CreateRolledBack(c: Config, s: Store, task: TaskName, payload: Payload, key: Key)
    requires task in c.allowed && key !in s.index
    ensures var row := NewRow(task, payload, key, 0, None);
            var t := Flush(s, s.uuids, row, 1, Absent).0;
            CallFrom(c, s, Call(Create(task, payload, key), Opened), 0, 3)
              == (RollBack(Publish(t, s.uuids, row).0, s.uuids, key), Aborted(Some(key)))
  {
    var row, call := NewRow(task, payload, key, 0, None), Call(Create(task, payload, key), Opened);
    CallOne(c, s, call, 0, 3);
    CallOne(c, s, call.(phase := Absent), 1, 3);
    InsertedPath(c, Flush(s, s.uuids, row, 1, Absent).0, call.(phase := Flushed(s.uuids, row)), s.uuids, row, 3);
  }

  // ---------------------------------------------------------------------------
  // A rolled-back create
  // ---------------------------------------------------------------------------

  /** A rolled-back create leaves its message and nothing else. */
  lemma OrphanSent(c: Config, task: TaskName, payload: Payload, key: Key) returns (es: seq<Event>)
    requires task in c.allowed && key.Client?
    ensures var w := Run(c, es); var m := FirstMessage(EMPTY_STORE, task, payload, key);
            && w.store == EMPTY_STORE.(queue := [Envelope(m, FromApi, false)], sent := map[0 := m], uuids := 2)
            && |w.calls| == 1 && w.deliveries == []
  {
    var r := Create(task, payload, key);
    es := [Open(r)] + Steps(0, 0, 3);
    assert [] + [Open(r)] == [Open(r)];
    RequestIsRun(c, [], r, 3);
    CreateRolledBack(c, EMPTY_STORE, task, payload, key);
  }

  /** After the orphan has run, its result is cached. */
  lemma OrphanRuns(c: Config, task: TaskName, payload: Payload, key: Key, v: JobModel.Value) returns (es: seq<Event>)
    requires task in c.allowed && key.Client?
    ensures var w := Run(c, es);
            && w.store.rows == map[] && w.store.index == map[] && w.store.revoked == {} && w.store.now == 0.0
            && w.store.cache == map[key := Entry(v, c.resultTtl as real)] && w.store.uuids == 2
            && |w.store.queue| == 1 && |w.calls| == 1 && |w.deliveries| == 1 && w.deliveries[0].msg.job == 0
  {
    var es1 := OrphanSent(c, task, payload, key);
    var w := Run(c, es1);
    es := es1 + [Deliver(0)] + Works(0, Returning(v), 0);
    AttemptIsRun(c, es1, 0, Returning(v));
    Misses(c, Take(w.store, 0), w.store.queue[0].msg, v);
  }

  /**
   A client's create is rolled back after its send; its message runs and its result is cached. The
   client repeats the create, now with another payload, and it commits. The committed job's only
   attempt returns the rolled-back job's result: its own execute() is never called.
   */
  lemma OrphanDecides(c: Config, task: TaskName, payload: Payload, other: Payload, key: Key,
                      v: JobModel.Value, mine: JobModel.Value)
    returns (es: seq<Event>, j: JobId)
    requires task in c.allowed && key.Client? && c.resultTtl > 0
    ensures var w := Run(c, es);
            && j in w.store.rows && w.store.rows[j].payload == other && w.store.rows[j].status == COMPLETED
            && w.store.rows[j].result == v
            && |w.deliveries| == 2 && w.deliveries[0].msg.job != j
            && w.deliveries[1].msg.job == j && w.deliveries[1].phase == Finished(Returned(v, true))
  {
    var es1 := OrphanRuns(c, task, payload, key, v);
    var es2 := CommittedAfterOrphan(c, es1, task, other, key);
    var w := Run(c, es2);
    es, j := es2 + [Deliver(1)] + Works(1, Returning(mine), 0), 2;
    AttemptIsRun(c, es2, 1, Returning(mine));
    Hits(c, Take(w.store, 1), w.store.queue[1].msg, v, mine);
    assert Run(c, es).deliveries[0] == Run(c, es).deliveries[..1][0];
  }

  /** The repeated create commits job 2. */
  lemma CommittedAfterOrphan(c: Config, es: seq<Event>, task: TaskName, other: Payload, key: Key)
    returns (fs: seq<Event>)
    requires task in c.allowed && key.Client?
    requires var w := Run(c, es);
             && w.store.rows == map[] && w.store.index == map[] && w.store.uuids == 2 && w.store.now == 0.0
             && |w.store.queue| == 1 && |w.calls| == 1
    ensures var w, v := Run(c, es), Run(c, fs); var m := FirstMessage(w.store, task, other, key);
            && 2 in v.store.rows && v.store.rows[2].payload == other && v.store.rows[2].result == Null
            && v.store.cache == w.store.cache && v.store.revoked == w.store.revoked && v.store.now == 0.0
            && v.deliveries == w.deliveries && v.store.queue == w.store.queue + [Envelope(m, FromApi, false)]
  {
    var r := Create(task, other, key);
    fs := es + [Open(r)] + Steps(1, 0, CALL_STEPS);
    RequestIsRun(c, es, r, CALL_STEPS);
    CreateAlone(c, Run(c, es).store, task, other, key);
  }

  // ---------------------------------------------------------------------------
  // Terminal statuses overwritten
  // ---------------------------------------------------------------------------

  /** The message of a delivery at work is put back, and the delivery then completes. */
  lemma CompletesWithCopy(c: Config, w: World, v: JobModel.Value) returns (fs: seq<Event>)
    requires 0 in w.store.rows && w.deliveries == [] && |w.store.queue| == 1 && Enabled(w, Deliver(0))
    requires w.store.queue[0].msg.job == 0 && w.store.cache == map[] && w.store.revoked == {}
    ensures var u := Continue(c, w, fs);
            && 0 in u.store.rows && u.store.rows[0].status == COMPLETED && u.store.revoked == {}
            && |u.store.queue| == 2 && Copy(u.store.queue[1], 0)
  {
    var x := Step(c, Step(c, w, Deliver(0)), Redeliver(0));
    fs := [Deliver(0), Redeliver(0)] + Works(0, Returning(v), 0);
    TwoEvents(c, w, Deliver(0), Redeliver(0), Works(0, Returning(v), 0));
    WorksAreWork(c, x, 0, Returning(v), 0);
    TraceIsWork(c, x.store, x.deliveries[0], Returning(v));
    Misses(c, x.store, x.deliveries[0].msg, v);
  }

  /** COMPLETED is not always final: a copy of the message, redelivered in time, will write RUNNING over it. */
  lemma CompletedIsNotFinal(c: Config, task: TaskName, v: JobModel.Value) returns (es: seq<Event>)
    requires task in c.allowed
    ensures var w := Run(c, es);
            0 in w.store.rows && w.store.rows[0].status == COMPLETED && !Final(w, 0)
  {
    var before := FirstCreated(c, task, 0, Client(0));
    var fs := CompletesWithCopy(c, Run(c, before), v);
    es := before + fs;
    RunContinues(c, before, fs);
  }

  /** The message is delivered between the cancel's read and its write. */
  lemma CancelOverlapped(c: Config, w: World) returns (fs: seq<Event>)
    requires 0 in w.store.rows && w.store.rows[0].status == PENDING && w.store.rows[0].celeryId.Some?
    requires |w.calls| == 1 && w.deliveries == [] && w.store.revoked == {}
    requires Enabled(w, Deliver(0)) && w.store.queue[0].msg.job == 0
    ensures var u := Continue(c, w, fs);
            && 0 in u.store.rows && u.store.rows[0].status == CANCELLED
            && |u.deliveries| == 1 && Threat(u.deliveries[0], 0, CANCELLED)
  {
    var open, api := Open(Cancel(0)), Api(1, false);
    fs := [open, api] + ([Deliver(0), api] + [api]);
    TwoEvents(c, w, open, api, [Deliver(0), api] + [api]);
    var w1 := Step(c, Step(c, w, open), api);
    assert w1 == w.(calls := w.calls + [Call(Cancel(0), PendingSeen(w.store.rows[0].celeryId))]);
    TwoEvents(c, w1, Deliver(0), api, [api]);
    var w2 := Step(c, Step(c, w1, Deliver(0)), api);
    assert w2.calls[1] == Call(Cancel(0), Revoking) && w2.store.rows == w.store.rows;
    LastEvent(c, w2, api);
  }

  /** CANCELLED is not always final: a delivery that overlaps the cancel call will write over it. */
  lemma CancelledIsNotFinal(c: Config, task: TaskName) returns (es: seq<Event>)
    requires task in c.allowed
    ensures var w := Run(c, es);
            0 in w.store.rows && w.store.rows[0].status == CANCELLED && !Final(w, 0)
  {
    var before := FirstCreated(c, task, 0, Client(0));
    var fs := CancelOverlapped(c, Run(c, before));
    es := before + fs;
    RunContinues(c, before, fs);
  }

  // ---------------------------------------------------------------------------
  // Duplicate creates
  // ---------------------------------------------------------------------------

  /**
   Two equal creates that both find the key absent: the second one is not answered with the first
   one's job but fails, and publishes nothing.
   */
  lemma DuplicateFails(c: Config, task: TaskName, payload: Payload, key: Key) returns (es: seq<Event>)
    requires task in c.allowed && key.Client?
    ensures var w := Run(c, es);
            && |w.calls| == 2 && w.calls[0].request == w.calls[1].request == Create(task, payload, key)
            && w.calls[0].phase == Replied(Created(0, key)) && w.calls[1].phase == Aborted(None)
            && |w.store.queue| == 1
  {
    var r := Create(task, payload, key);
    var w := World(EMPTY_STORE, [Call(r, Opened), Call(r, Opened)], []);
    var gs := SecondAborts(c, task, payload, key);
    es := [Open(r), Open(r)] + ([Api(0, false), Api(1, false)] + gs);
    assert [] + es == es;
    TwoAbsent(c, r);
    RunContinues(c, [], es);
    TwoEvents(c, START, Open(r), Open(r), [Api(0, false), Api(1, false)] + gs);
    TwoEvents(c, w, Api(0, false), Api(1, false), gs);
  }

  /** Both have found the key absent; the first one goes on to its reply, then the second one flushes. */
  lemma SecondAborts(c: Config, task: TaskName, payload: Payload, key: Key) returns (gs: seq<Event>)
    requires task in c.allowed && key.Client?
    ensures var r := Create(task, payload, key);
            var w := Continue(c, World(EMPTY_STORE, [Call(r, Absent), Call(r, Absent)], []), gs);
            && |w.calls| == 2 && w.calls[0].request == w.calls[1].request == r
            && w.calls[0].phase == Replied(Created(0, key)) && w.calls[1].phase == Aborted(None)
            && |w.store.queue| == 1
  {
    var r := Create(task, payload, key);
    var w := World(EMPTY_STORE, [Call(r, Absent), Call(r, Absent)], []);
    gs := Steps(0, 1, CALL_STEPS) + [Api(1, false)];
    StepsAreCall(c, w, 0, 1, CALL_STEPS);
    ContinueMore(c, w, Steps(0, 1, CALL_STEPS), [Api(1, false)]);
    LastEvent(c, Continue(c, w, Steps(0, 1, CALL_STEPS)), Api(1, false));
    CallOne(c, EMPTY_STORE, Call(r, Opened), 0, CALL_STEPS);
    CreateAlone(c, EMPTY_STORE, task, payload, key);
  }

  lemma TwoAbsent(c: Config, r: Request)
    requires r.Create? && r.task in c.allowed && r.key.Client?
    ensures var w := Step(c, Step(c, START, Open(r)), Open(r));
            && w == World(EMPTY_STORE, [Call(r, Opened), Call(r, Opened)], [])
            && Step(c, Step(c, w, Api(0, false)), Api(1, false))
                 == World(EMPTY_STORE, [Call(r, Absent), Call(r, Absent)], [])
  {
  }
}
