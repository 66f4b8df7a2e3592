/**
 The whole installation as mutable objects: stores, open requests and deliveries at work. A driver
 takes an arbitrary schedule of effects and lands in the state that the protocol assigns to it.
 */
module SystemModel {
  import opened JobModel
  import opened Protocol
  import opened ApiInvariant
  import opened JobStatusHistory
  import opened Stores
  import opened BaseTaskModel
  import opened JobServiceModel

  class System {
    const deployment: Deployment
    var calls: seq<Call>
    var deliveries: seq<Delivery>

    constructor (config: Config)
      ensures deployment.config == config && Current() == START
      ensures fresh(deployment.db) && fresh(deployment.broker) && fresh(deployment.cache)
      ensures fresh(deployment.metrics) && fresh(deployment.host)
    {
      deployment := new Deployment(config);
      calls, deliveries := [], [];
    }

    /** The state as the protocol sees it. */
    ghost function Current(): World
      reads this, deployment.db, deployment.broker, deployment.cache, deployment.metrics, deployment.host
    {
      World(deployment.State(), calls, deliveries)
    }

    /** The next step of a request that meets no exception. */
    method Proceed(call: Call) returns (p: CallPhase)
      modifies deployment.db, deployment.broker, deployment.metrics, deployment.host
      ensures (deployment.State(), p) == CallProceeds(deployment.config, old(deployment.State()), call)
    {
      var service := new JobService(deployment);
      var r := call.request;
      p := call.phase;
      match call.phase {
        case Opened => p := service.Look(r);
        case Absent =>
          if r.Create? {
            p := service.AddAndFlush(deployment.host.uuids, NewRow(r.task, r.payload, r.key, 0, None), 1, Absent);
          }
        case Original(row) =>
          if r.RetryDlq? {
            var u := deployment.host.uuids;
            p := service.AddAndFlush(u + 1, NewRow(row.task, row.payload, DlqRetry(u), row.retryCount + 1, Some(r.job)),
                                     2, call.phase);
          }
        case PendingSeen(id) =>
          if id.Some? {
            deployment.broker.Revoke(id.value);
          }
          p := Revoking;
        case Revoking =>
          if r.Cancel? {
            deployment.db.SetStatus(r.job, CANCELLED);
            p := Replied(Cancelled);
          }
        case Flushed(id, row) => p := service.SendTask(id, row);
        case Sent(id, row) =>
          deployment.db.Commit(id, row);
          p := Committed(id, row, false);
        case Committed(id, row, counted) =>
          if r.RetryDlq? && !counted {
            deployment.metrics.Inc(row.task, DLQ_RETRY);
            p := Committed(id, row, true);
          } else {
            p := Replied(Created(id, row.key));
          }
        case _ =>
      }
    }

    /** An exception at this point of the request. */
    method Raise(call: Call) returns (p: CallPhase)
      modifies deployment.db
      ensures (deployment.State(), p) == CallRaises(old(deployment.State()), call)
    {
      p := call.phase;
      match call.phase {
        case Flushed(id, row) =>
          deployment.db.RollBack(id, row.key);
          p := Aborted(None);
        case Sent(id, row) =>
          deployment.db.RollBack(id, row.key);
          p := Aborted(Some(row.key));
        case Committed(id, row, counted) => p := Errored(id, row, counted);
        case Replied(_) =>
        case Aborted(_) =>
        case Errored(_, _, _) =>
        case _ => p := Aborted(None);
      }
    }

    /** The next effect of a delivery before its hook: before_start, cache check, execute, retry. */
    method Attempt(task: BaseTask, p: Phase, x: Choice) returns (n: Phase)
      requires task.deployment == deployment
      requires p.Starting? || p.Checking? || p.Executing? || p.Requeueing? || p.CountingRetry?
      modifies deployment.db, deployment.broker, deployment.metrics
      ensures deployment.State() == Effect(deployment.config, old(deployment.State()), task.request, p, x)
      ensures n == NextPhase(deployment.config, old(deployment.State()), task.request, p, x.outcome)
    {
      if p.Starting? {
        task.BeforeStart(x.dbOk);
        n := Checking;
      } else if p.Checking? {
        var cached := task.CheckIdempotency();
        n := if cached.Some? then Completing(cached.value, true) else Executing;
      } else if p.Executing? {
        n := AfterExecute(deployment.config, task.request.retries, x.outcome);
      } else if p.Requeueing? {
        task.Retry();
        n := CountingRetry;
      } else {
        task.OnRetry();
        n := Acking(Requeued);
      }
    }

    /** The next effect of on_success. */
    method Complete(task: BaseTask, p: Phase, x: Choice) returns (n: Phase)
      requires task.deployment == deployment && (p.Completing? || p.Counting? || p.Storing?)
      modifies deployment.db, deployment.metrics, deployment.cache
      ensures deployment.State() == Effect(deployment.config, old(deployment.State()), task.request, p, x)
      ensures n == NextPhase(deployment.config, old(deployment.State()), task.request, p, x.outcome)
    {
      if p.Completing? {
        task.UpdateStatus(COMPLETED, p.value, false, x.dbOk);
        n := Counting(p.value, p.hit);
      } else if p.Counting? {
        deployment.metrics.Inc(task.request.task, SUCCESS);
        n := Storing(p.value, p.hit);
      } else {
        task.StoreResult(p.value);
        n := Acking(Returned(p.value, p.hit));
      }
    }

    /** The next effect of on_failure. */
    method Fail(task: BaseTask, p: Phase, x: Choice) returns (n: Phase)
      requires task.deployment == deployment
      requires p.DlqSending? || p.WritingFailed? || p.WritingDlq? || p.CountingFailed? || p.Gauging?
      modifies deployment.db, deployment.broker, deployment.metrics
      ensures deployment.State() == Effect(deployment.config, old(deployment.State()), task.request, p, x)
      ensures n == NextPhase(deployment.config, old(deployment.State()), task.request, p, x.outcome)
    {
      if p.DlqSending? {
        task.SendToDlq(x.dlqOk);
        n := WritingFailed(p.pass);
      } else if p.WritingFailed? {
        task.UpdateStatus(FAILED, Null, false, x.dbOk);
        n := WritingDlq(p.pass);
      } else if p.WritingDlq? {
        task.UpdateStatus(DLQ, Null, false, x.dbOk);
        n := CountingFailed(p.pass);
      } else if p.CountingFailed? {
        deployment.metrics.Inc(task.request.task, FAILURE);
        n := Gauging(p.pass);
      } else {
        deployment.metrics.IncDlqSize();
        n := if p.pass.OwnCall? then DlqSending(CeleryCall) else Acking(Raised(p.pass));
      }
    }

    /** The next effect of a delivery. */
    method Perform(task: BaseTask, p: Phase, x: Choice) returns (n: Phase)
      requires task.deployment == deployment
      modifies deployment.db, deployment.broker, deployment.metrics, deployment.cache
      ensures deployment.State() == Effect(deployment.config, old(deployment.State()), task.request, p, x)
      ensures n == NextPhase(deployment.config, old(deployment.State()), task.request, p, x.outcome)
    {
      match p {
        case Starting => n := Attempt(task, p, x);
        case Checking => n := Attempt(task, p, x);
        case Executing => n := Attempt(task, p, x);
        case Requeueing => n := Attempt(task, p, x);
        case CountingRetry => n := Attempt(task, p, x);
        case Completing(_, _) => n := Complete(task, p, x);
        case Counting(_, _) => n := Complete(task, p, x);
        case Storing(_, _) => n := Complete(task, p, x);
        case DlqSending(_) => n := Fail(task, p, x);
        case WritingFailed(_) => n := Fail(task, p, x);
        case WritingDlq(_) => n := Fail(task, p, x);
        case CountingFailed(_) => n := Fail(task, p, x);
        case Gauging(_) => n := Fail(task, p, x);
        case Acking(end) => n := Finished(end);
        case Finished(_) => n := p;
        case Discarded => n := p;
      }
    }

    method DoApi(i: nat, raises: bool)
      requires i < |calls|
      modifies this, deployment.db, deployment.broker, deployment.metrics, deployment.host
      ensures Current() == Step(deployment.config, old(Current()), Api(i, raises))
    {
      var p;
      if raises {
        p := Raise(calls[i]);
      } else {
        p := Proceed(calls[i]);
      }
      calls := calls[i := calls[i].(phase := p)];
    }

    method DoDeliver(q: nat)
      requires Enabled(Current(), Deliver(q))
      modifies this, deployment.broker
      ensures Current() == Step(deployment.config, old(Current()), Deliver(q))
    {
      var msg := deployment.broker.Take(q);
      var first := if msg.id in deployment.broker.revoked then Discarded else Starting;
      deliveries := deliveries + [Delivery(msg, deployment.host.now, first, Alive, false, false)];
    }

    method DoWork(i: nat, x: Choice)
      requires Enabled(Current(), Work(i, x))
      modifies this, deployment.db, deployment.broker, deployment.metrics, deployment.cache
      ensures Current() == Step(deployment.config, old(Current()), Work(i, x))
    {
      var d := deliveries[i];
      var found := deployment.db.FindById(d.msg.job);
      var task := new BaseTask(deployment, d.msg);
      var n := Perform(task, d.phase, x);
      deliveries := deliveries[i := d.(
        phase := n,
        counted := d.counted || (d.phase.Starting? && x.dbOk && found.Some?),
        tried := d.tried || d.phase.DlqSending?)];
    }

    method DoRedeliver(i: nat)
      requires Enabled(Current(), Redeliver(i))
      modifies this, deployment.broker
      ensures Current() == Step(deployment.config, old(Current()), Redeliver(i))
    {
      var d := deliveries[i];
      deployment.broker.Enqueue(d.msg, FromRedelivery);
      if d.life.Crashed? {
        deliveries := deliveries[i := d.(life := Reclaimed)];
      } else {
        assert deliveries[i := d] == deliveries;
      }
    }

    /** Requests only name uuids that have been drawn. */
    method DoOpen(r: Request)
      modifies this
      ensures Current() == Step(deployment.config, old(Current()), Open(r))
    {
      if !r.Create? || KnownKey(r.key, deployment.host.uuids) {
        calls := calls + [Call(r, Opened)];
      }
    }

    /** One event of a schedule. */
    method Handle(e: Event)
      modifies this, deployment.db, deployment.broker, deployment.cache, deployment.metrics, deployment.host
      ensures Current() == Step(deployment.config, old(Current()), e)
    {
      var queue, now := deployment.broker.queue, deployment.host.now;
      match e {
        case Open(r) => DoOpen(r);
        case Api(i, raises) =>
          if i < |calls| {
            DoApi(i, raises);
          }
        case Deliver(q) =>
          if q < |queue| && !queue[q].taken && queue[q].msg.eta <= now {
            DoDeliver(q);
          }
        case Work(i, x) =>
          if i < |deliveries| && Active(deliveries[i]) {
            DoWork(i, x);
          }
        case Crash(i) =>
          if i < |deliveries| && Active(deliveries[i]) {
            deliveries := deliveries[i := deliveries[i].(life := Crashed)];
          }
        case Redeliver(i) =>
          if i < |deliveries| && Unacked(deliveries[i]) && !deliveries[i].life.Reclaimed? {
            DoRedeliver(i);
          }
        case Tick(t) =>
          if t >= 0.0 {
            deployment.host.Wait(t);
          }
      }
    }

    /** An arbitrary schedule, on a new installation: every state on the way satisfies the global invariant. */
    method Drive(es: seq<Event>)
      requires Current() == START
      modifies this, deployment.db, deployment.broker, deployment.cache, deployment.metrics, deployment.host
      ensures Current() == Run(deployment.config, es)
      ensures Inv(deployment.config, Current()) && AllJustified(Current())
    {
      var n := 0;
      RunInv(deployment.config, []);
      StatusJustified(deployment.config, []);
      while n < |es|
        invariant 0 <= n <= |es|
        invariant Current() == Run(deployment.config, es[..n])
        invariant Inv(deployment.config, Current()) && AllJustified(Current())
      {
        Handle(es[n]);
        assert es[..n + 1][..n] == es[..n];
        n := n + 1;
        RunInv(deployment.config, es[..n]);
        StatusJustified(deployment.config, es[..n]);
      }
      assert es[..n] == es;
    }
  }
}
