/**
 The API side as it is written: create, cancel and DLQ retry over one database session, with the
 rollback that ends a failed request. A request that nothing interrupts has exactly the effect of
 the protocol's call steps.
 */
module JobServiceModel {
  import opened JobModel
  import opened Protocol
  import opened Stores

  /** No call takes more steps: read, flush, send, commit, metric, reply. */
  const CALL_STEPS := 6

  /** The steps of a call in a row; an exception strikes at step `raiseAt`, if that is one of them. */
  ghost function CallFrom(c: Config, s: Store, call: Call, n: nat, raiseAt: nat): (Store, CallPhase)
    decreases CALL_STEPS - n
  {
    if n >= CALL_STEPS then (s, call.phase)
    else
      var (t, p) := CallStep(c, s, call, n == raiseAt);
      CallFrom(c, t, call.(phase := p), n + 1, raiseAt)
  }

  lemma CallOne(c: Config, s: Store, call: Call, n: nat, raiseAt: nat)
    requires n < CALL_STEPS
    ensures var (t, p) := CallStep(c, s, call, n == raiseAt);
            CallFrom(c, s, call, n, raiseAt) == CallFrom(c, t, call.(phase := p), n + 1, raiseAt)
  {
  }

  /** A call that has ended steps no more. */
  lemma {:induction false} CallDone(c: Config, s: Store, call: Call, n: nat, raiseAt: nat)
    requires call.phase.Replied? || call.phase.Aborted? || call.phase.Errored?
    ensures CallFrom(c, s, call, n, raiseAt) == (s, call.phase)
    decreases CALL_STEPS - n
  {
    if n < CALL_STEPS {
      CallDone(c, s, call, n + 1, raiseAt);
    }
  }

  /** get_db_session: one request's session; an exception rolls its open insert back. */
  class Session {
    const db: Database
    var open: Option<(JobId, Key)>

    constructor (db: Database)
      ensures this.db == db && open == None
    {
      this.db := db;
      open := None;
    }

    method Flush(id: JobId, row: Row) returns (r: Inserted)
      modifies this, db
      ensures db.rows == old(db.rows)
      ensures r == if row.key !in old(db.index) then Fresh
                   else if old(db.index)[row.key] in old(db.rows) then Duplicate else Blocked
      ensures db.pending == if r.Fresh? then old(db.pending)[id := row] else old(db.pending)
      ensures db.index == if r.Fresh? then old(db.index)[row.key := id] else old(db.index)
      ensures open == if r.Fresh? then Some((id, row.key)) else old(open)
    {
      r := db.Insert(id, row);
      if r.Fresh? {
        open := Some((id, row.key));
      }
    }

    method Commit(id: JobId, row: Row)
      modifies this, db
      ensures db.pending == old(db.pending) - {id} && db.rows == old(db.rows)[id := row] && db.index == old(db.index)
      ensures open == None
    {
      db.Commit(id, row);
      open := None;
    }

    /** The except branch of get_db_session. */
    method RollBack()
      modifies this, db
      ensures open == None && db.rows == old(db.rows)
      ensures db.pending == (match old(open) case Some((id, _)) => old(db.pending) - {id} case None => old(db.pending))
      ensures db.index == (match old(open) case Some((_, key)) => old(db.index) - {key} case None => old(db.index))
    {
      if open.Some? {
        db.RollBack(open.value.0, open.value.1);
        open := None;
      }
    }
  }

  class JobService {
    const deployment: Deployment
    const session: Session

    constructor (deployment: Deployment)
      ensures this.deployment == deployment && session.db == deployment.db && session.open == None && fresh(session)
    {
      this.deployment := deployment;
      session := new Session(deployment.db);
    }

    ghost predicate Ready()
      reads session
    {
      session.db == deployment.db && session.open == None
    }

    /** The whitelist check and the SELECT that start a request. */
    method Look(r: Request) returns (p: CallPhase)
      ensures p == Protocol.Look(deployment.config, deployment.State(), r)
    {
      match r {
        case Create(task, _, key) =>
          if task !in deployment.config.allowed {
            return Replied(NotAllowed);
          }
          var found := deployment.db.FindByIdempotencyKey(key);
          p := if found.Some? then Replied(Existing(found.value, key)) else Absent;
        case Cancel(job) =>
          var found := deployment.db.FindById(job);
          p := if found.None? then Replied(NotFound)
               else if found.value.status != PENDING then Replied(Conflict(found.value.status))
               else PendingSeen(found.value.celeryId);
        case RetryDlq(job) =>
          var found := deployment.db.FindById(job);
          p := if found.None? then Replied(NotFound)
               else if found.value.status != DLQ then Replied(Conflict(found.value.status))
               else Original(found.value);
      }
    }

    /** add and flush: draws the new row's uuids if it goes through. */
    method AddAndFlush(id: JobId, row: Row, drawn: nat, here: CallPhase) returns (p: CallPhase)
      requires Ready()
      modifies session, deployment.db, deployment.host
      ensures (deployment.State(), p) == Protocol.Flush(old(deployment.State()), id, row, drawn, here)
      ensures session.open == if row.key in old(deployment.db.index) then None else Some((id, row.key))
    {
      var inserted := session.Flush(id, row);
      match inserted {
        case Duplicate =>
          session.RollBack();
          p := Aborted(None);
        case Blocked => p := here;
        case Fresh =>
          deployment.host.Draw(drawn);
          p := Flushed(id, row);
      }
    }

    /** send_task, and the celery id set on the row */
    method SendTask(id: JobId, row: Row) returns (p: CallPhase)
      modifies deployment.broker, deployment.host
      ensures (deployment.State(), p) == Publish(old(deployment.State()), id, row)
    {
      var celeryId := deployment.host.Uuid4();
      deployment.broker.Publish(Message(celeryId, id, row.key, row.task, row.payload, 0, deployment.host.now));
      p := Sent(id, row.(celeryId := Some(celeryId)));
    }

    /** From a flushed row on: send_task, store the celery id, commit. */
    method SendAndCommit(id: JobId, row: Row, raiseAt: nat) returns (p: CallPhase)
      requires session.db == deployment.db && session.open == Some((id, row.key))
      modifies session, deployment.db, deployment.broker, deployment.host
      ensures Ready()
      ensures var s := old(deployment.State());
              var (sent, q) := Publish(s, id, row);
              if raiseAt == 2 then deployment.State() == RollBack(s, id, row.key) && p == Aborted(None)
              else if raiseAt == 3 then deployment.State() == RollBack(sent, id, row.key) && p == Aborted(Some(row.key))
              else deployment.State() == Commit(sent, id, q.row) && p == Committed(id, q.row, false)
    {
      if raiseAt == 2 {
        session.RollBack();
        return Aborted(None);
      }
      p := SendTask(id, row);
      if raiseAt == 3 {
        session.RollBack();
        return Aborted(Some(row.key));
      }
      session.Commit(id, p.row);
      p := Committed(id, p.row, false);
    }

    /** Flush a new row: True goes on with the open transaction, False ends the call in `p`. */
    method Insert(id: JobId, row: Row, drawn: nat, here: CallPhase, raiseAt: nat) returns (flushed: bool, p: CallPhase)
      requires Ready() && drawn >= 1 && raiseAt > 0 && (here.Absent? || here.Original?)
      modifies session, deployment.db, deployment.host
      ensures session.db == deployment.db && session.open == if flushed then Some((id, row.key)) else None
      ensures var s := old(deployment.State());
              var (t, q) := Protocol.Flush(s, id, row, drawn, here);
              if raiseAt == 1 then !flushed && deployment.State() == s && p == Aborted(None)
              else
                && deployment.State() == t && (flushed <==> row.key !in s.index)
                && p == if q == here && 2 <= raiseAt < CALL_STEPS then Aborted(None) else q
    {
      if raiseAt == 1 {
        return false, Aborted(None);
      }
      p := AddAndFlush(id, row, drawn, here);
      flushed := p.Flushed?;
      if !flushed && p == here && raiseAt < CALL_STEPS {
        p := Aborted(None);
      }
    }

    /** How a committed call ends for its client: the reply, unless an exception comes first. */
    ghost function Answered(r: Request, p: CallPhase, raiseAt: nat): (Store, CallPhase)
      requires p.Committed?
      reads deployment.db, deployment.broker, deployment.cache, deployment.metrics, deployment.host
    {
      Afterwards(deployment.State(), r, p.id, p.row, raiseAt)
    }

    /** From the read on: insert, send, commit. */
    method Submit(ghost r: Request, id: JobId, row: Row, drawn: nat, here: CallPhase, raiseAt: nat)
      returns (p: CallPhase)
      requires Ready() && drawn >= 1 && raiseAt > 0 && (here.Absent? || here.Original?)
      requires CallProceeds(deployment.config, deployment.State(), Call(r, here))
            == Flush(deployment.State(), id, row, drawn, here)
      modifies session, deployment.db, deployment.broker, deployment.host
      ensures Ready()
      ensures CallFrom(deployment.config, old(deployment.State()), Call(r, here), 1, raiseAt)
           == if p.Committed? then Answered(r, p, raiseAt) else (deployment.State(), p)
      ensures p.Committed? ==> p.id == id && p.row.task == row.task && p.row.key == row.key && !p.counted
    {
      ghost var c, s := deployment.config, deployment.State();
      CallOne(c, s, Call(r, here), 1, raiseAt);
      var flushed;
      flushed, p := Insert(id, row, drawn, here, raiseAt);
      if flushed {
        ghost var s2 := deployment.State();
        p := SendAndCommit(id, row, raiseAt);
        InsertedPath(c, s2, Call(r, Flushed(id, row)), id, row, raiseAt);
      } else {
        InsertFails(c, s, Call(r, here), id, row, drawn, raiseAt);
      }
    }

    /** create_job */
    method CreateJob(task: TaskName, payload: Payload, key: Key, raiseAt: nat) returns (p: CallPhase)
      requires Ready()
      modifies session, deployment.db, deployment.broker, deployment.host
      ensures Ready()
      ensures (deployment.State(), p)
           == CallFrom(deployment.config, old(deployment.State()), Call(Create(task, payload, key), Opened), 0, raiseAt)
    {
      var r := Create(task, payload, key);
      ghost var c, s := deployment.config, deployment.State();
      CallOne(c, s, Call(r, Opened), 0, raiseAt);
      if raiseAt == 0 {
        CallDone(c, s, Call(r, Aborted(None)), 1, raiseAt);
        return Aborted(None);
      }
      p := Look(r);
      if p.Replied? {
        CallDone(c, s, Call(r, p), 1, raiseAt);
        return;
      }
      p := Submit(r, deployment.host.uuids, NewRow(task, payload, key, 0, None), 1, Absent, raiseAt);
      if p.Committed? {
        p := if raiseAt == 4 then Errored(p.id, p.row, false) else Replied(Created(p.id, key));
      }
    }

    /** retry_dlq_job */
    method RetryDlqJob(job: JobId, raiseAt: nat) returns (p: CallPhase)
      requires Ready()
      modifies session, deployment.db, deployment.broker, deployment.host, deployment.metrics
      ensures Ready()
      ensures (deployment.State(), p)
           == CallFrom(deployment.config, old(deployment.State()), Call(RetryDlq(job), Opened), 0, raiseAt)
    {
      ghost var c, s := deployment.config, deployment.State();
      var r := RetryDlq(job);
      CallOne(c, s, Call(r, Opened), 0, raiseAt);
      if raiseAt == 0 {
        CallDone(c, s, Call(r, Aborted(None)), 1, raiseAt);
        return Aborted(None);
      }
      p := Look(r);
      if p.Replied? {
        CallDone(c, s, Call(r, p), 1, raiseAt);
        return;
      }
      var original := p.row;
      var u := deployment.host.uuids;
      p := Submit(r, u + 1, NewRow(original.task, original.payload, DlqRetry(u), original.retryCount + 1, Some(job)),
                  2, Original(original), raiseAt);
      if p.Committed? {
        if raiseAt == 4 {
          return Errored(p.id, p.row, false);
        }
        deployment.metrics.Inc(p.row.task, DLQ_RETRY);
        p := if raiseAt == 5 then Errored(p.id, p.row, true) else Replied(Created(p.id, p.row.key));
      }
    }

    /** get_job: the row with its estimate, None when there is no such job. */
    method GetJob(job: JobId) returns (r: Option<(Row, Option<real>)>)
      ensures r.None? <==> job !in deployment.State().rows
      ensures r.Some? ==>
                r.value.0 == deployment.State().rows[job]
                && r.value.1 == EstimatedNextRun(r.value.0, deployment.State().now)
    {
      var found := deployment.db.FindById(job);
      if found.None? {
        return None;
      }
      var estimate := None;
      if found.value.status == PENDING && found.value.retryCount > 0 {
        var countdown := Pow2(found.value.retryCount) * 10;
        estimate := Some(deployment.host.now + countdown as real);
      }
      r := Some((found.value, estimate));
    }

    /** cancel_job */
    method CancelJob(job: JobId, raiseAt: nat) returns (p: CallPhase)
      requires Ready()
      modifies session, deployment.db, deployment.broker
      ensures Ready()
      ensures (deployment.State(), p)
           == CallFrom(deployment.config, old(deployment.State()), Call(Cancel(job), Opened), 0, raiseAt)
    {
      ghost var c, s := deployment.config, deployment.State();
      var r := Cancel(job);
      CallOne(c, s, Call(r, Opened), 0, raiseAt);
      if raiseAt == 0 {
        CallDone(c, s, Call(r, Aborted(None)), 1, raiseAt);
        return Aborted(None);
      }
      p := Look(r);
      if p.Replied? {
        CallDone(c, s, Call(r, p), 1, raiseAt);
        return;
      }
      CallOne(c, s, Call(r, p), 1, raiseAt);
      if raiseAt == 1 {
        CallDone(c, s, Call(r, Aborted(None)), 2, raiseAt);
        return Aborted(None);
      }
      if p.celeryId.Some? {
        deployment.broker.Revoke(p.celeryId.value);
      }
      ghost var s2 := deployment.State();
      CallOne(c, s2, Call(r, Revoking), 2, raiseAt);
      if raiseAt == 2 {
        CallDone(c, s2, Call(r, Aborted(None)), 3, raiseAt);
        return Aborted(None);
      }
      deployment.db.SetStatus(job, CANCELLED);
      CallDone(c, deployment.State(), Call(r, Replied(Cancelled)), 3, raiseAt);
      return Replied(Cancelled);
    }
  }

  /** A flush that waits for another transaction, while nothing else happens. */
  lemma BlockedForGood(c: Config, s: Store, call: Call, raiseAt: nat)
    requires raiseAt != 1 && CallProceeds(c, s, call) == (s, call.phase)
    requires call.phase.Absent? || call.phase.Original?
    ensures CallFrom(c, s, call, 1, raiseAt) == (s, if 2 <= raiseAt < CALL_STEPS then Aborted(None) else call.phase)
  {
    CallOne(c, s, call, 1, raiseAt);
    BlockedFrom(c, s, call, 2, raiseAt);
  }

  lemma {:induction false} BlockedFrom(c: Config, s: Store, call: Call, n: nat, raiseAt: nat)
    requires CallProceeds(c, s, call) == (s, call.phase) && (call.phase.Absent? || call.phase.Original?)
    ensures CallFrom(c, s, call, n, raiseAt) == (s, if n <= raiseAt < CALL_STEPS then Aborted(None) else call.phase)
    decreases CALL_STEPS - n
  {
    if n < CALL_STEPS {
      if n == raiseAt {
        CallDone(c, s, call.(phase := Aborted(None)), n + 1, raiseAt);
      } else {
        assert call.(phase := call.phase) == call;
        BlockedFrom(c, s, call, n + 1, raiseAt);
      }
    }
  }

  /** A call whose flush is refused, blocked or never reached. */
  lemma InsertFails(c: Config, s: Store, call: Call, id: JobId, row: Row, drawn: nat, raiseAt: nat)
    requires raiseAt > 0 && (call.phase.Absent? || call.phase.Original?)
    requires CallProceeds(c, s, call) == Flush(s, id, row, drawn, call.phase)
    requires raiseAt == 1 || row.key in s.index
    ensures CallFrom(c, s, call, 1, raiseAt) ==
            (s, if raiseAt == 1 || s.index[row.key] in s.rows then Aborted(None)
                else if 2 <= raiseAt < CALL_STEPS then Aborted(None) else call.phase)
  {
    if raiseAt != 1 && s.index[row.key] !in s.rows {
      BlockedForGood(c, s, call, raiseAt);
    } else {
      CallOne(c, s, call, 1, raiseAt);
      CallDone(c, s, call.(phase := Aborted(None)), 2, raiseAt);
    }
  }

  /** The steps after the commit: a retry counts, then the client is answered. */
  function Afterwards(t: Store, r: Request, id: JobId, row: Row, raiseAt: nat): (Store, CallPhase)
  {
    if raiseAt == 4 then (t, Errored(id, row, false))
    else if !r.RetryDlq? then (t, Replied(Created(id, row.key)))
    else if raiseAt == 5 then (Count(t, row.task, DLQ_RETRY), Errored(id, row, true))
    else (Count(t, row.task, DLQ_RETRY), Replied(Created(id, row.key)))
  }

  lemma CommittedPath(c: Config, t: Store, call: Call, id: JobId, row: Row, raiseAt: nat)
    requires call.phase == Committed(id, row, false)
    ensures CallFrom(c, t, call, 4, raiseAt) == Afterwards(t, call.request, id, row, raiseAt)
  {
    var (u, p) := CallStep(c, t, call, raiseAt == 4);
    CallOne(c, t, call, 4, raiseAt);
    CallOne(c, u, call.(phase := p), 5, raiseAt);
  }

  /** The steps after a successful flush. */
  lemma InsertedPath(c: Config, s: Store, call: Call, id: JobId, row: Row, raiseAt: nat)
    requires call.phase == Flushed(id, row) && raiseAt != 0 && raiseAt != 1
    ensures var (sent, q) := Publish(s, id, row);
            CallFrom(c, s, call, 2, raiseAt) ==
              if raiseAt == 2 then (RollBack(s, id, row.key), Aborted(None))
              else if raiseAt == 3 then (RollBack(sent, id, row.key), Aborted(Some(row.key)))
              else Afterwards(Commit(sent, id, q.row), call.request, id, q.row, raiseAt)
  {
    var (sent, q) := Publish(s, id, row);
    CallOne(c, s, call, 2, raiseAt);
    if raiseAt == 2 {
      CallDone(c, RollBack(s, id, row.key), call.(phase := Aborted(None)), 3, raiseAt);
    } else {
      CallOne(c, sent, call.(phase := q), 3, raiseAt);
      if raiseAt == 3 {
        CallDone(c, RollBack(sent, id, row.key), call.(phase := Aborted(Some(row.key))), 4, raiseAt);
      } else {
        CommittedPath(c, Commit(sent, id, q.row), call.(phase := Committed(id, q.row, false)), id, q.row, raiseAt);
      }
    }
  }
}
