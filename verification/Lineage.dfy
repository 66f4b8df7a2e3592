/**
 What rows and messages owe each other: no committed row is without its message, every
 message derived from a row agrees with it, and DLQ retries form a forest over whitelisted jobs.
 */
module Lineage {
  import opened JobModel
  import opened Protocol
  import opened ApiInvariant
  import opened CreateRace

  // ---------------------------------------------------------------------------
  // No lost enqueue
  // ---------------------------------------------------------------------------

  /** The message the API published for job `j` is on the queue. */
  ghost predicate Enqueued(s: Store, j: JobId)
  {
    exists q :: 0 <= q < |s.queue| && s.queue[q].origin.FromApi? && j in s.sent && s.queue[q].msg == s.sent[j]
  }

  ghost predicate AllEnqueued(s: Store)
  {
    forall j :: j in s.sent ==> Enqueued(s, j)
  }

  lemma EnqueuedKept(s: Store, t: Store, j: JobId)
    requires Enqueued(s, j) && j in t.sent && t.sent[j] == s.sent[j]
    requires |s.queue| <= |t.queue|
    requires forall q :: 0 <= q < |s.queue| ==>
               t.queue[q].msg == s.queue[q].msg && t.queue[q].origin == s.queue[q].origin
    ensures Enqueued(t, j)
  {
    var q :| 0 <= q < |s.queue| && s.queue[q].origin.FromApi? && s.queue[q].msg == s.sent[j];
    assert t.queue[q].msg == t.sent[j];
  }

  /** Published messages stay on record. */
  lemma QueueGrows(c: Config, w: World, e: Event)
    ensures var (s, t) := (w.store, Step(c, w, e).store);
            && |s.queue| <= |t.queue| <= |s.queue| + 1
            && (forall q :: 0 <= q < |s.queue| ==>
                  t.queue[q].msg == s.queue[q].msg && t.queue[q].origin == s.queue[q].origin)
  {
    if Enabled(w, e) && e.Api? {
      CallQueue(c, w.store, w.calls[e.call], e.raises);
    } else if Enabled(w, e) && e.Work? {
      EffectPublishes(c, w.store, w.deliveries[e.delivery].msg, w.deliveries[e.delivery].phase, e.x);
    }
  }

  /** What is new on record is at the end of the queue. */
  lemma SentIsQueued(c: Config, w: World, e: Event)
    ensures var (s, t) := (w.store, Step(c, w, e).store);
            forall j :: j in t.sent && j !in s.sent ==>
              |t.queue| == |s.queue| + 1 && t.queue[|s.queue|] == Envelope(t.sent[j], FromApi, false)
  {
    if Enabled(w, e) && e.Api? {
      CallPublishes(c, w.store, w.calls[e.call], e.raises);
    } else if Enabled(w, e) && e.Work? {
      EffectFrame(c, w.store, w.deliveries[e.delivery].msg, w.deliveries[e.delivery].phase, e.x);
    }
  }

  lemma {:induction false} RunEnqueues(c: Config, es: seq<Event>)
    ensures AllEnqueued(Run(c, es).store)
  {
    if es != [] {
      var w, e := Run(c, es[..|es| - 1]), es[|es| - 1];
      RunEnqueues(c, es[..|es| - 1]);
      RunInv(c, es[..|es| - 1]);
      StepInv(c, w, e);
      QueueGrows(c, w, e);
      SentIsQueued(c, w, e);
      var s, t := w.store, Step(c, w, e).store;
      forall j | j in t.sent ensures Enqueued(t, j) {
        if j in s.sent {
          EnqueuedKept(s, t, j);
        } else {
          assert t.queue[|s.queue|].msg == t.sent[j];
        }
      }
    }
  }

  /** Every committed row, from a create or a DLQ retry, had its message published and carries that message's id. */
  lemma NoLostEnqueue(c: Config, es: seq<Event>, j: JobId)
    requires j in Run(c, es).store.rows
    ensures var s := Run(c, es).store;
            exists q :: 0 <= q < |s.queue| && s.queue[q].origin.FromApi? && s.queue[q].msg.job == j
              && s.rows[j].celeryId == Some(s.queue[q].msg.id)
  {
    RunInv(c, es);
    RunEnqueues(c, es);
    var s := Run(c, es).store;
    assert RowSent(s, j, s.rows[j]) && Enqueued(s, j);
  }

  /** A message, through any number of retries and redeliveries, agrees with its job's row. */
  lemma MessageAgrees(c: Config, es: seq<Event>, q: nat)
    requires q < |Run(c, es).store.queue|
    requires Run(c, es).store.queue[q].msg.job in Run(c, es).store.rows
    ensures var s := Run(c, es).store; var m := s.queue[q].msg; var row := s.rows[m.job];
            && row.celeryId == Some(m.id) && row.key == m.key && row.task == m.task && row.payload == m.payload
            && m.retries <= c.maxRetries
  {
    RunInv(c, es);
    var s := Run(c, es).store;
    assert MessageOk(c, s, s.queue[q].msg);
    assert RowSent(s, s.queue[q].msg.job, s.rows[s.queue[q].msg.job]);
  }

  /** Two messages of one job differ in retry number and ETA only, even when its row was rolled back. */
  lemma MessagesOfJobAgree(c: Config, es: seq<Event>, p: nat, q: nat)
    requires p < |Run(c, es).store.queue| && q < |Run(c, es).store.queue|
    requires Run(c, es).store.queue[p].msg.job == Run(c, es).store.queue[q].msg.job
    ensures var s := Run(c, es).store;
            s.queue[p].msg == s.queue[q].msg.(retries := s.queue[p].msg.retries, eta := s.queue[p].msg.eta)
  {
    RunInv(c, es);
    var s := Run(c, es).store;
    assert MessageOk(c, s, s.queue[p].msg) && MessageOk(c, s, s.queue[q].msg);
  }

  /** What reaches the DLQ names the job, task and payload of the row it came from. */
  lemma DlqAgrees(c: Config, es: seq<Event>, q: nat)
    requires q < |Run(c, es).store.dlq| && Run(c, es).store.dlq[q].job in Run(c, es).store.rows
    ensures var s := Run(c, es).store; var d := s.dlq[q];
            s.rows[d.job].task == d.task && s.rows[d.job].payload == d.payload
  {
    RunInv(c, es);
    var s := Run(c, es).store;
    assert DlqMessageOk(s, s.dlq[q]);
    assert RowSent(s, s.dlq[q].job, s.rows[s.dlq[q].job]);
  }

  /** Every message on the default queue names a whitelisted task, though a DLQ retry never checks the whitelist. */
  lemma OnlyWhitelisted(c: Config, es: seq<Event>, q: nat)
    requires q < |Run(c, es).store.queue|
    ensures Run(c, es).store.queue[q].msg.task in c.allowed
  {
    RunInv(c, es);
    var s := Run(c, es).store;
    assert MessageOk(c, s, s.queue[q].msg);
  }

  // ---------------------------------------------------------------------------
  // The forest
  // ---------------------------------------------------------------------------

  ghost predicate Forest(c: Config, rows: map<JobId, Row>)
  {
    forall j {:trigger LineageOk(c, rows, rows[j])} :: j in rows ==> LineageOk(c, rows, rows[j])
  }

  /** The ancestors of `j`, nearest first, by following parent links as far as they go. */
  ghost function Ancestors(c: Config, rows: map<JobId, Row>, j: JobId): (path: seq<JobId>)
    requires Forest(c, rows) && j in rows
    ensures forall k :: 0 <= k < |path| ==> path[k] in rows
    decreases rows[j].retryCount
  {
    assert LineageOk(c, rows, rows[j]);
    if rows[j].parent.None? then [] else [rows[j].parent.value] + Ancestors(c, rows, rows[j].parent.value)
  }

  /** retry_count is the depth in the forest; the root is whitelisted and has the same task and payload. */
  lemma {:induction false} DepthIsRetryCount(c: Config, rows: map<JobId, Row>, j: JobId)
    requires Forest(c, rows) && j in rows
    ensures var path := Ancestors(c, rows, j);
            var root := if path == [] then j else path[|path| - 1];
            && |path| == rows[j].retryCount
            && rows[root].parent == None && rows[root].task in c.allowed
            && rows[root].task == rows[j].task && rows[root].payload == rows[j].payload
    decreases rows[j].retryCount
  {
    assert LineageOk(c, rows, rows[j]);
    if rows[j].parent.Some? {
      var p := rows[j].parent.value;
      DepthIsRetryCount(c, rows, p);
      var rest := Ancestors(c, rows, p);
      assert Ancestors(c, rows, j) == [p] + rest;
    }
  }

  /** Following parent links strictly lowers retry_count, so no job is its own ancestor. */
  lemma {:induction false} NoCycle(c: Config, rows: map<JobId, Row>, j: JobId)
    requires Forest(c, rows) && j in rows
    ensures forall a :: a in Ancestors(c, rows, j) ==> a in rows && rows[a].retryCount < rows[j].retryCount
    ensures j !in Ancestors(c, rows, j)
    decreases rows[j].retryCount
  {
    assert LineageOk(c, rows, rows[j]);
    if rows[j].parent.Some? {
      NoCycle(c, rows, rows[j].parent.value);
    }
  }

  /** In every reachable state parent links are acyclic and retry_count counts the DLQ retries behind a job. */
  lemma LineageForest(c: Config, es: seq<Event>, j: JobId)
    requires j in Run(c, es).store.rows
    ensures var rows := Run(c, es).store.rows;
            && Forest(c, rows)
            && j !in Ancestors(c, rows, j)
            && |Ancestors(c, rows, j)| == rows[j].retryCount
            && rows[j].task in c.allowed
            && (rows[j].parent.Some? ==>
                  && rows[j].parent.value in rows && rows[j].key.DlqRetry?
                  && rows[j].payload == rows[rows[j].parent.value].payload)
  {
    RunInv(c, es);
    var rows := Run(c, es).store.rows;
    assert LineageOk(c, rows, rows[j]);
    DepthIsRetryCount(c, rows, j);
    NoCycle(c, rows, j);
  }
}
