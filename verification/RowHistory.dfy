/**
 What a row holds: the status and the result of the last write of its job that succeeded, and of no
 other. A write that fails leaves every column as it was.
 */
module RowHistory {
  import opened JobModel
  import opened Protocol
  import opened ApiInvariant
  import opened JobStatusHistory

  /** The status that a delivery writes at this phase, if its write succeeds. */
  function StatusOf(p: Phase): Option<Status>
  {
    match p
    case Starting => Some(RUNNING)
    case Completing(_, _) => Some(COMPLETED)
    case WritingFailed(_) => Some(FAILED)
    case WritingDlq(_) => Some(DLQ)
    case _ => None
  }

  /** A worker's write of job `j` that reaches its row. */
  predicate WorkerWrites(w: World, e: Event, j: JobId)
  {
    && Enabled(w, e) && e.Work? && e.x.dbOk && j in w.store.rows
    && w.deliveries[e.delivery].msg.job == j && StatusOf(w.deliveries[e.delivery].phase).Some?
  }

  predicate Commits(w: World, e: Event, j: JobId)
  {
    Enabled(w, e) && e.Api? && !e.raises && w.calls[e.call].phase.Sent? && w.calls[e.call].phase.id == j
  }

  predicate Cancels(w: World, e: Event, j: JobId)
  {
    Enabled(w, e) && e.Api? && !e.raises && w.calls[e.call] == Call(Cancel(j), Revoking)
  }

  /** The status of the last successful write of job `j`. */
  function LastStatus(c: Config, es: seq<Event>, j: JobId): Option<Status>
  {
    if es == [] then None
    else
      var w, e := Run(c, es[..|es| - 1]), es[|es| - 1];
      if WorkerWrites(w, e, j) then StatusOf(w.deliveries[e.delivery].phase)
      else if Commits(w, e, j) then Some(PENDING)
      else if Cancels(w, e, j) then Some(CANCELLED)
      else LastStatus(c, es[..|es| - 1], j)
  }

  /** The last result other than null written for job `j`; null at its commit. */
  function LastResult(c: Config, es: seq<Event>, j: JobId): Option<Value>
  {
    if es == [] then None
    else
      var w, e := Run(c, es[..|es| - 1]), es[|es| - 1];
      if WorkerWrites(w, e, j) && w.deliveries[e.delivery].phase.Completing?
         && w.deliveries[e.delivery].phase.value != Null
      then Some(w.deliveries[e.delivery].phase.value)
      else if Commits(w, e, j) then Some(Null)
      else LastResult(c, es[..|es| - 1], j)
  }

  /** A failing write changes no row. */
  lemma FailedWriteChangesNothing(c: Config, s: Store, msg: Message, p: Phase, x: Choice)
    requires !x.dbOk
    ensures Effect(c, s, msg, p, x).rows == s.rows
  {
    if !Updates(p) {
      OtherEffects(c, s, msg, p, x);
    }
  }

  /** A write that succeeds writes its phase's status, and a result only if there is one. */
  lemma WriteReachesRow(c: Config, s: Store, msg: Message, p: Phase, x: Choice)
    requires x.dbOk && msg.job in s.rows
    ensures var t := Effect(c, s, msg, p, x); var row := s.rows[msg.job];
            && msg.job in t.rows
            && t.rows[msg.job].status == (if StatusOf(p).Some? then StatusOf(p).value else row.status)
            && t.rows[msg.job].result == (if p.Completing? && p.value != Null then p.value else row.result)
  {
    if !Updates(p) {
      OtherEffects(c, s, msg, p, x);
    }
  }

  lemma WorkerKeepsHistory(c: Config, w: World, i: nat, x: Choice, j: JobId)
    requires Enabled(w, Work(i, x))
    ensures var t := Step(c, w, Work(i, x)).store; var p := w.deliveries[i].phase;
            && (j in t.rows <==> j in w.store.rows)
            && (j in t.rows ==>
                  if WorkerWrites(w, Work(i, x), j) then
                    && Some(t.rows[j].status) == StatusOf(p)
                    && t.rows[j].result == if p.Completing? && p.value != Null then p.value else w.store.rows[j].result
                  else t.rows[j].status == w.store.rows[j].status && t.rows[j].result == w.store.rows[j].result)
  {
    var d := w.deliveries[i];
    EffectFrame(c, w.store, d.msg, d.phase, x);
    if !x.dbOk {
      FailedWriteChangesNothing(c, w.store, d.msg, d.phase, x);
    } else if d.msg.job == j && j in w.store.rows {
      WriteReachesRow(c, w.store, d.msg, d.phase, x);
    }
  }

  lemma ApiKeepsHistory(c: Config, w: World, e: Event, j: JobId)
    requires Inv(c, w) && Enabled(w, e) && e.Api?
    ensures var t := Step(c, w, e).store;
            && (j in t.rows <==> j in w.store.rows || Commits(w, e, j))
            && (j in t.rows ==>
                  if Commits(w, e, j) then t.rows[j].status == PENDING && t.rows[j].result == Null
                  else (t.rows[j].result == w.store.rows[j].result
                        && t.rows[j].status == if Cancels(w, e, j) then CANCELLED else w.store.rows[j].status))
  {
    assert CallOk(c, w.store, w.calls[e.call]);
    if j in w.store.rows {
      RowStaysCommitted(c, w, e, j);
    }
    if j in Step(c, w, e).store.rows {
      CallRows(c, w.store, w.calls[e.call], e.raises, j);
    }
  }

  ghost predicate HistoryTold(c: Config, es: seq<Event>, j: JobId)
  {
    var rows := Run(c, es).store.rows;
    && LastStatus(c, es, j) == (if j in rows then Some(rows[j].status) else None)
    && LastResult(c, es, j) == (if j in rows then Some(rows[j].result) else None)
  }

  /**
   In every run a row's status is that of the last write of its job that succeeded, and its result
   the last one other than null: writes that failed, and writes of other jobs, have left no trace.
   */
  lemma {:induction false} RowIsLastWrite(c: Config, es: seq<Event>, j: JobId)
    ensures HistoryTold(c, es, j)
  {
    if es != [] {
      var w, e := Run(c, es[..|es| - 1]), es[|es| - 1];
      RowIsLastWrite(c, es[..|es| - 1], j);
      RunInv(c, es[..|es| - 1]);
      if Enabled(w, e) && e.Work? {
        WorkerKeepsHistory(c, w, e.delivery, e.x, j);
      } else if Enabled(w, e) && e.Api? {
        ApiKeepsHistory(c, w, e, j);
      }
    }
  }
}
