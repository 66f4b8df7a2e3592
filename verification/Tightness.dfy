/**
 The bounds are tight: for every retry limit and every number of redeliveries there is a schedule,
 without a single crash, in which a committed job is attempted exactly as often as the bound
 allows, and one in which every retry starts exactly when its backoff has passed.
 */
module Tightness {
  import opened JobModel
  import opened Protocol
  import opened ApiInvariant
  import opened Attempts
  import opened JobStatusHistory
  import opened Backoff
  import opened BaseTaskModel
  import opened Uninterrupted
  import opened Sums

  const FAILS := Choice(true, true, OtherError)

  /** Nothing revoked and nothing cached: every message starts, every attempt reaches execute(). */
  predicate Clear(s: Store)
  {
    s.cache == map[] && s.revoked == {}
  }

  /** What a chain of retries of job `j` leaves alone. */
  ghost predicate Leaves(w: World, v: World, j: JobId)
  {
    && Clear(v.store) && j in v.store.rows && v.store.now >= w.store.now
    && w.store.queue <= v.store.queue
    && Redeliveries(v, j) == Redeliveries(w, j)
  }

  /** before_start's write. */
  function Begun(s: Store, j: JobId): Store
  {
    UpdateJobStatus(s, j, RUNNING, Null, true, true)
  }

  /** before_start, cache miss, failing execute(), retry. */
  lemma FourSteps(c: Config, s: Store, d: Delivery, xs: seq<Choice>)
    requires xs == [FAILS, FAILS, FAILS, FAILS] && Clear(s) && d.msg.job in s.rows
    requires Active(d) && d.phase.Starting? && d.msg.retries < c.maxRetries
    ensures WorkFrom(c, s, d, xs, 0)
         == (Requeue(Begun(s, d.msg.job), d.msg), d.(phase := CountingRetry, counted := true))
  {
    var d1 := d.(phase := Checking, counted := true);
    var d2, d3 := d1.(phase := Executing), d1.(phase := Requeueing);
    WorkOne(c, s, d, xs, 0);
    WorkOne(c, Begun(s, d.msg.job), d1, xs, 1);
    WorkOne(c, Begun(s, d.msg.job), d2, xs, 2);
    WorkOne(c, Begun(s, d.msg.job), d3, xs, 3);
  }

  /** One failing attempt, the wait for its retry, and the retry's delivery. */
  lemma Round(c: Config, w: World, i: nat) returns (fs: seq<Event>)
    requires i < |w.deliveries| && Clear(w.store) && w.deliveries[i].msg.job in w.store.rows
    requires Active(w.deliveries[i]) && w.deliveries[i].phase.Starting? && w.deliveries[i].msg.retries < c.maxRetries
    ensures var v := Continue(c, w, fs); var d := w.deliveries[i];
            && |v.deliveries| == |w.deliveries| + 1
            && v.deliveries[..|w.deliveries|] == w.deliveries[i := d.(phase := CountingRetry, counted := true)]
            && v.deliveries[|w.deliveries|] == NewDelivery(v.store, NextRetry(d.msg, w.store.now))
            && v.store.queue == w.store.queue + [Envelope(NextRetry(d.msg, w.store.now), FromRetry, true)]
            && Clear(v.store) && v.store.now == w.store.now + Countdown(d.msg.retries) as real
            && v.store.rows == Begun(w.store, d.msg.job).rows
  {
    var xs, d := [FAILS, FAILS, FAILS, FAILS], w.deliveries[i];
    var wait, take := Tick(Countdown(d.msg.retries) as real), Deliver(|w.store.queue|);
    fs := Works(i, xs, 0) + [wait, take];
    ContinueMore(c, w, Works(i, xs, 0), [wait, take]);
    WorksAreWork(c, w, i, xs, 0);
    FourSteps(c, w.store, d, xs);
    var u := World(Requeue(Begun(w.store, d.msg.job), d.msg), w.calls,
                   w.deliveries[i := d.(phase := CountingRetry, counted := true)]);
    TickAndTake(c, u, wait, take);
  }

  lemma TickAndTake(c: Config, u: World, wait: Event, take: Event)
    requires |u.store.queue| > 0 && wait.Tick? && wait.seconds >= 0.0 && take == Deliver(|u.store.queue| - 1)
    requires !u.store.queue[|u.store.queue| - 1].taken
    requires u.store.queue[|u.store.queue| - 1].msg.eta <= u.store.now + wait.seconds
    ensures var n := |u.store.queue| - 1;
            var v := Continue(c, u, [wait, take]);
            v == World(Take(u.store.(now := u.store.now + wait.seconds), n), u.calls,
                       u.deliveries + [NewDelivery(u.store.(now := u.store.now + wait.seconds), u.store.queue[n].msg)])
  {
    var t := Step(c, u, wait);
    assert [wait, take][1..] == [take];
    assert Continue(c, u, [wait, take]) == Continue(c, t, [take]);
    assert [take][1..] == [];
    assert Continue(c, t, [take]) == Step(c, t, take);
  }

  /** before_start of the last attempt. */
  lemma LastStarts(c: Config, w: World, i: nat, j: JobId)
    requires i < |w.deliveries| && Clear(w.store) && w.deliveries[i].msg.job == j && j in w.store.rows
    requires Active(w.deliveries[i]) && w.deliveries[i].phase.Starting?
    ensures var v := Continue(c, w, [Work(i, FAILS)]);
            && Leaves(w, v, j) && Attempted(v, j) == Attempted(w, j)
            && Executions(v.store, j) == Executions(w.store, j) + 1
  {
    LastEvent(c, w, Work(i, FAILS));
    SumUpdate(AttemptOf(j), w.deliveries, i, w.deliveries[i].(phase := Checking, counted := true));
  }

  /** An attempt that is about to start can be made to use up all its retries. */
  lemma {:induction false} Chain(c: Config, w: World, i: nat, j: JobId) returns (fs: seq<Event>)
    requires i < |w.deliveries| && Clear(w.store) && w.deliveries[i].msg.job == j && j in w.store.rows
    requires Active(w.deliveries[i]) && w.deliveries[i].phase.Starting? && w.deliveries[i].msg.retries <= c.maxRetries
    ensures var v := Continue(c, w, fs); var n := c.maxRetries - w.deliveries[i].msg.retries;
            && Leaves(w, v, j)
            && Attempted(v, j) == Attempted(w, j) + n && Executions(v.store, j) == Executions(w.store, j) + n + 1
    decreases c.maxRetries - w.deliveries[i].msg.retries
  {
    if w.deliveries[i].msg.retries == c.maxRetries {
      fs := [Work(i, FAILS)];
      LastStarts(c, w, i, j);
    } else {
      var gs := Round(c, w, i);
      var v := Continue(c, w, gs);
      var hs := Chain(c, v, |w.deliveries|, j);
      fs := gs + hs;
      ContinueMore(c, w, gs, hs);
      RoundCounts(w, v, i, j);
    }
  }

  lemma RoundCounts(w: World, v: World, i: nat, j: JobId)
    requires i < |w.deliveries| && w.deliveries[i].msg.job == j && w.deliveries[i].phase.Starting?
    requires |v.deliveries| == |w.deliveries| + 1
    requires v.deliveries[..|w.deliveries|] ==
             w.deliveries[i := w.deliveries[i].(phase := CountingRetry, counted := true)]
    requires Attempt(v.deliveries[|w.deliveries|]) && v.deliveries[|w.deliveries|].msg.job == j
    requires |v.store.queue| == |w.store.queue| + 1 && v.store.queue[..|w.store.queue|] == w.store.queue
    requires v.store.queue[|w.store.queue|].origin.FromRetry?
    ensures Attempted(v, j) == Attempted(w, j) + 1 && Redeliveries(v, j) == Redeliveries(w, j)
  {
    var n := |w.deliveries|;
    SumUpdate(AttemptOf(j), w.deliveries, i, w.deliveries[i].(phase := CountingRetry, counted := true));
    SumAppend(AttemptOf(j), v.deliveries[..n], v.deliveries[n]);
    assert v.deliveries == v.deliveries[..n] + [v.deliveries[n]];
    SumAppend(RedeliveryOf(j), w.store.queue, v.store.queue[|w.store.queue|]);
    assert v.store.queue == w.store.queue + [v.store.queue[|w.store.queue|]];
  }

  /** After `k` redeliveries the job has used up `k` full chains, and a first message waits at `q`. */
  ghost predicate Primed(c: Config, w: World, j: JobId, k: nat, q: nat)
  {
    && Clear(w.store) && j in w.store.rows
    && q < |w.store.queue| && !w.store.queue[q].taken
    && w.store.queue[q].msg.job == j && w.store.queue[q].msg.retries == 0 && w.store.queue[q].msg.eta <= w.store.now
    && Redeliveries(w, j) == k && Attempted(w, j) == Executions(w.store, j) == (c.maxRetries + 1) * k
  }

  /** Delivery of the waiting message. */
  lemma Taken(c: Config, w: World, j: JobId, k: nat, q: nat)
    requires Primed(c, w, j, k, q)
    ensures var v := Step(c, w, Deliver(q)); var i := |w.deliveries|;
            && Clear(v.store) && v.store.rows == w.store.rows && v.store.now == w.store.now
            && |v.deliveries| == i + 1 && v.deliveries[i].msg == w.store.queue[q].msg
            && Active(v.deliveries[i]) && v.deliveries[i].phase.Starting?
            && Attempted(v, j) == Attempted(w, j) + 1 && Redeliveries(v, j) == Redeliveries(w, j)
  {
    SumAppend(AttemptOf(j), w.deliveries, NewDelivery(w.store, w.store.queue[q].msg));
    SumUpdate(RedeliveryOf(j), w.store.queue, q, w.store.queue[q].(taken := true));
  }

  /** The broker puts a copy of a delivery's message back, though its worker is alive. */
  lemma Copied(c: Config, w: World, i: nat, j: JobId)
    requires i < |w.deliveries| && Active(w.deliveries[i]) && w.deliveries[i].msg.job == j
    ensures var v := Step(c, w, Redeliver(i));
            && v.deliveries == w.deliveries
            && v.store == w.store.(queue := w.store.queue + [Envelope(w.deliveries[i].msg, FromRedelivery, false)])
            && Redeliveries(v, j) == Redeliveries(w, j) + 1
  {
    SumAppend(RedeliveryOf(j), w.store.queue, Envelope(w.deliveries[i].msg, FromRedelivery, false));
    assert w.deliveries[i := w.deliveries[i]] == w.deliveries;
  }

  /** The copy waits while the chain runs. */
  lemma StillPrimed(c: Config, v: World, x: World, j: JobId, k: nat, p: nat)
    requires Leaves(v, x, j)
    requires p < |v.store.queue| && !v.store.queue[p].taken && v.store.queue[p].msg.job == j
    requires v.store.queue[p].msg.retries == 0 && v.store.queue[p].msg.eta <= v.store.now
    requires Redeliveries(v, j) == k + 1 && Attempted(v, j) == (c.maxRetries + 1) * k + 1
    requires Attempted(x, j) == Attempted(v, j) + c.maxRetries
    requires Executions(x.store, j) == Executions(v.store, j) + c.maxRetries + 1
    requires Executions(v.store, j) == (c.maxRetries + 1) * k
    ensures Primed(c, x, j, k + 1, p)
  {
    assert x.store.queue[p] == v.store.queue[p];
    Distribute(c.maxRetries, k, 1);
  }

  /** One more redelivery, one more full chain. */
  lemma OneMoreChain(c: Config, w: World, j: JobId, k: nat, q: nat) returns (fs: seq<Event>, p: nat)
    requires Primed(c, w, j, k, q)
    ensures Primed(c, Continue(c, w, fs), j, k + 1, p)
  {
    var i := |w.deliveries|;
    var u := Step(c, w, Deliver(q));
    Taken(c, w, j, k, q);
    var v := Step(c, u, Redeliver(i));
    Copied(c, u, i, j);
    p := |u.store.queue|;
    var gs := Chain(c, v, i, j);
    fs := [Deliver(q), Redeliver(i)] + gs;
    TwoEvents(c, w, Deliver(q), Redeliver(i), gs);
    StillPrimed(c, v, Continue(c, v, gs), j, k, p);
  }

  /** The last chain, without a redelivery. */
  lemma LastChain(c: Config, w: World, j: JobId, k: nat, q: nat) returns (fs: seq<Event>)
    requires Primed(c, w, j, k, q)
    ensures var v := Continue(c, w, fs);
            && j in v.store.rows && Redeliveries(v, j) == k
            && Attempted(v, j) == Executions(v.store, j) == (c.maxRetries + 1) * (1 + k)
  {
    var u := Step(c, w, Deliver(q));
    Taken(c, w, j, k, q);
    var gs := Chain(c, u, |w.deliveries|, j);
    fs := [Deliver(q)] + gs;
    assert fs[1..] == gs;
    Distribute(c.maxRetries, 1, k);
  }

  /** A client creates job 0; its row is committed and its message waits. */
  lemma FirstJob(c: Config, task: TaskName) returns (es: seq<Event>)
    requires task in c.allowed
    ensures Primed(c, Run(c, es), 0, 0, 0) && Run(c, es).deliveries == []
  {
    es := FirstCreated(c, task, 0, Client(0));
    FirstIsPrimed(c, Run(c, es));
  }

  lemma FirstIsPrimed(c: Config, w: World)
    requires Clear(w.store) && 0 in w.store.rows && |w.store.queue| == 1 && w.deliveries == []
    requires w.store.queue[0].msg.job == 0 && w.store.queue[0].msg.retries == 0 && !w.store.queue[0].taken
    requires w.store.queue[0].msg.eta <= w.store.now && w.store.queue[0].origin.FromApi?
    requires w.store.rows[0].executionCount == 0
    ensures Primed(c, w, 0, 0, 0)
  {
    assert w.store.queue == [] + [w.store.queue[0]];
    SumAppend(RedeliveryOf(0), [], w.store.queue[0]);
  }

  lemma {:induction false} Chains(c: Config, task: TaskName, k: nat) returns (es: seq<Event>, q: nat)
    requires task in c.allowed
    ensures Primed(c, Run(c, es), 0, k, q)
  {
    if k == 0 {
      es := FirstJob(c, task);
      q := 0;
    } else {
      var before, p := Chains(c, task, k - 1);
      var fs;
      fs, q := OneMoreChain(c, Run(c, before), 0, k - 1, p);
      es := before + fs;
      RunContinues(c, before, fs);
    }
  }

  /**
   The bound (max_retries + 1) * (1 + redeliveries) is reached by a job's attempts and by its
   execution_count, for every retry limit and every number of redeliveries.
   */
  lemma AttemptBoundIsTight(c: Config, task: TaskName, k: nat) returns (es: seq<Event>, j: JobId)
    requires task in c.allowed
    ensures j in Run(c, es).store.rows && Redeliveries(Run(c, es), j) == k
    ensures Attempted(Run(c, es), j) == Run(c, es).store.rows[j].executionCount == (c.maxRetries + 1) * (1 + k)
  {
    var before, q := Chains(c, task, k);
    var fs := LastChain(c, Run(c, before), 0, k, q);
    es, j := before + fs, 0;
    RunContinues(c, before, fs);
  }

  // ---------------------------------------------------------------------------
  // The backoff is tight too
  // ---------------------------------------------------------------------------

  /** Delivery `r` of job 0 has retry number `r` and starts now, exactly its backoff after delivery 0. */
  ghost predicate OnTime(w: World, r: nat)
  {
    && Clear(w.store) && 0 in w.store.rows && |w.deliveries| == r + 1
    && (forall i :: 0 <= i <= r ==> w.deliveries[i].msg.job == 0 && Attempt(w.deliveries[i]))
    && Active(w.deliveries[r]) && w.deliveries[r].phase.Starting?
    && w.deliveries[r].msg.retries == r && w.deliveries[r].start == w.store.now
    && w.store.now == w.deliveries[0].start + TotalDelay(r) as real
  }

  lemma OnTimeRound(c: Config, w: World, v: World, r: nat)
    requires OnTime(w, r) && Clear(v.store) && 0 in v.store.rows && |v.deliveries| == r + 2
    requires v.deliveries[..r + 1] == w.deliveries[r := w.deliveries[r].(phase := CountingRetry, counted := true)]
    requires v.deliveries[r + 1] == NewDelivery(v.store, NextRetry(w.deliveries[r].msg, w.store.now))
    requires v.store.now == w.store.now + Countdown(r) as real
    ensures OnTime(v, r + 1)
  {
    assert TotalDelay(r + 1) == TotalDelay(r) + Countdown(r);
    forall i | 0 <= i <= r + 1 ensures v.deliveries[i].msg.job == 0 && Attempt(v.deliveries[i]) {
      if i <= r {
        assert v.deliveries[i] == v.deliveries[..r + 1][i];
        assert w.deliveries[i].msg.job == 0 && Attempt(w.deliveries[i]);
      } else {
        assert w.deliveries[r].msg.job == 0;
      }
    }
    assert v.deliveries[0] == v.deliveries[..r + 1][0];
  }

  lemma NextOnTime(c: Config, w: World, r: nat) returns (fs: seq<Event>)
    requires OnTime(w, r) && r < c.maxRetries
    ensures OnTime(Continue(c, w, fs), r + 1)
  {
    assert w.deliveries[r].msg.job == 0;
    fs := Round(c, w, r);
    OnTimeRound(c, w, Continue(c, w, fs), r);
  }

  lemma FirstOnTime(c: Config, w: World)
    requires Primed(c, w, 0, 0, 0) && w.deliveries == []
    ensures OnTime(Step(c, w, Deliver(0)), 0)
  {
    Taken(c, w, 0, 0, 0);
  }

  lemma {:induction false} RetriesOnTime(c: Config, task: TaskName, r: nat) returns (es: seq<Event>)
    requires task in c.allowed && r <= c.maxRetries
    ensures OnTime(Run(c, es), r)
  {
    if r == 0 {
      var before := FirstJob(c, task);
      es := before + [Deliver(0)];
      OneMoreEvent(c, before, Deliver(0));
      FirstOnTime(c, Run(c, before));
    } else {
      var before := RetriesOnTime(c, task, r - 1);
      var fs := NextOnTime(c, Run(c, before), r - 1);
      es := before + fs;
      RunContinues(c, before, fs);
    }
  }

  lemma {:induction false} FirstStartIsFirst(ds: seq<Delivery>, j: JobId)
    requires ds != [] && ds[0].msg.job == j && Attempt(ds[0])
    ensures FirstStart(ds, j) == Some(ds[0].start)
  {
    if |ds| == 1 {
      assert FirstStart(ds[..0], j) == None;
    } else {
      FirstStartIsFirst(ds[..|ds| - 1], j);
    }
  }

  /** For every retry number up to the limit there is a run in which it starts exactly when its backoff has passed. */
  lemma BackoffIsTight(c: Config, task: TaskName, r: nat) returns (es: seq<Event>)
    requires task in c.allowed && r <= c.maxRetries
    ensures var ds := Run(c, es).deliveries;
            && r < |ds| && Attempt(ds[r]) && ds[r].msg.job == 0 && ds[r].msg.retries == r
            && FirstStart(ds, 0).Some?
            && ds[r].start == FirstStart(ds, 0).value + (10 * (Pow2(r) - 1)) as real
  {
    es := RetriesOnTime(c, task, r);
    assert Run(c, es).deliveries[0].msg.job == 0;
    FirstStartIsFirst(Run(c, es).deliveries, 0);
  }
}
