/**
 The invariant that holds in every reachable state of the protocol: the unique index is
 consistent, every call is where its phase says, every row and message agrees with what the
 API published for its job, and parent links form a forest.
 */
module ApiInvariant {
  import opened JobModel
  import opened Protocol

  // ---------------------------------------------------------------------------
  // The parts
  // ---------------------------------------------------------------------------

  /** The columns that nothing changes once a row is committed. */
  predicate SameFixed(a: Row, b: Row)
  {
    && a.task == b.task && a.payload == b.payload && a.key == b.key
    && a.celeryId == b.celeryId && a.retryCount == b.retryCount && a.parent == b.parent
  }

  /** The index holds exactly the keys of committed and open rows, one row per key. */
  ghost predicate IndexOk(s: Store)
  {
    && s.rows.Keys !! s.pending.Keys
    && (forall j :: j in s.rows ==> s.rows[j].key in s.index && s.index[s.rows[j].key] == j)
    && (forall j :: j in s.pending ==> s.pending[j].key in s.index && s.index[s.pending[j].key] == j)
    && (forall k :: k in s.index ==> s.index[k] in s.rows || s.index[k] in s.pending)
    && (forall k :: k in s.index && s.index[k] in s.rows ==> s.rows[s.index[k]].key == k)
    && (forall k :: k in s.index && s.index[k] in s.pending ==> s.pending[s.index[k]].key == k)
  }

  /** Every identifier in the stores has been drawn. */
  ghost predicate DrawnOk(s: Store)
  {
    && (forall j :: j in s.rows ==> j < s.uuids && KnownKey(s.rows[j].key, s.uuids))
    && (forall j :: j in s.pending ==> j < s.uuids && KnownKey(s.pending[j].key, s.uuids))
    && (forall j :: j in s.sent ==> j < s.uuids && s.sent[j].id < s.uuids && KnownKey(s.sent[j].key, s.uuids))
  }

  /** A committed row carries the id, key, task and payload of the message the API published for it. */
  predicate RowSent(s: Store, j: JobId, row: Row)
  {
    && j in s.sent
    && row.celeryId == Some(s.sent[j].id)
    && row.key == s.sent[j].key && row.task == s.sent[j].task && row.payload == s.sent[j].payload
  }

  ghost predicate SentOk(s: Store)
  {
    && (forall j :: j in s.rows ==> RowSent(s, j, s.rows[j]))
    && (forall j :: j in s.sent ==> s.sent[j].job == j && s.sent[j].retries == 0)
    && (forall i, j :: i in s.sent && j in s.sent && i != j ==> s.sent[i].id != s.sent[j].id)
  }

  /** A parentless row names a whitelisted task; a child copies its parent's task and payload. */
  predicate LineageOk(c: Config, rows: map<JobId, Row>, row: Row)
  {
    match row.parent
    case None => row.retryCount == 0 && row.task in c.allowed
    case Some(p) =>
      && p in rows && row.retryCount == rows[p].retryCount + 1
      && row.task == rows[p].task && row.payload == rows[p].payload
      && row.key.DlqRetry?
  }

  ghost predicate ForestOk(c: Config, s: Store)
  {
    && (forall j {:trigger LineageOk(c, s.rows, s.rows[j])} :: j in s.rows ==> LineageOk(c, s.rows, s.rows[j]))
    && (forall j {:trigger LineageOk(c, s.rows, s.pending[j])} :: j in s.pending ==> LineageOk(c, s.rows, s.pending[j]))
    && (forall j :: j in s.sent ==> s.sent[j].task in c.allowed)
  }

  /** Whatever its retry number, a message is the API's message for its job. */
  predicate MessageOk(c: Config, s: Store, m: Message)
  {
    && m.job in s.sent
    && m == s.sent[m.job].(retries := m.retries, eta := m.eta)
    && m.retries <= c.maxRetries
  }

  predicate DlqMessageOk(s: Store, d: DlqMessage)
  {
    d.job in s.sent && d.task == s.sent[d.job].task && d.payload == s.sent[d.job].payload
  }

  predicate DeliveryOk(c: Config, s: Store, d: Delivery)
  {
    && MessageOk(c, s, d.msg)
    && (d.phase.Requeueing? ==> d.msg.retries < c.maxRetries)
    && d.start <= s.now
  }

  ghost predicate QueueOk(c: Config, s: Store)
  {
    forall q :: 0 <= q < |s.queue| ==> MessageOk(c, s, s.queue[q].msg)
  }

  ghost predicate DlqOk(s: Store)
  {
    forall q :: 0 <= q < |s.dlq| ==> DlqMessageOk(s, s.dlq[q])
  }

  /** The row a request inserts. */
  predicate MadeFor(r: Request, row: Row)
  {
    match r
    case Create(task, payload, key) =>
      row.task == task && row.payload == payload && row.key == key && row.parent == None
    case RetryDlq(job) => row.parent == Some(job) && row.key.DlqRetry?
    case Cancel(_) => false
  }

  predicate Unstarted(row: Row)
  {
    row.status == PENDING && row.executionCount == 0 && row.result == Null
  }

  function Minted(p: CallPhase): Option<JobId>
  {
    match p
    case Flushed(id, _) => Some(id)
    case Sent(id, _) => Some(id)
    case Committed(id, _, _) => Some(id)
    case Errored(id, _, _) => Some(id)
    case Replied(Created(id, _)) => Some(id)
    case _ => None
  }

  predicate OpenRow(s: Store, r: Request, id: JobId, row: Row)
  {
    id in s.pending && s.pending[id] == row && row.celeryId == None && Unstarted(row) && MadeFor(r, row)
  }

  predicate DoneRow(s: Store, r: Request, id: JobId)
  {
    id in s.rows && MadeFor(r, s.rows[id])
  }

  predicate CallOk(c: Config, s: Store, call: Call)
  {
    match call.phase
    case Opened => call.request.Create? ==> KnownKey(call.request.key, s.uuids)
    case Absent =>
      call.request.Create? && call.request.task in c.allowed && KnownKey(call.request.key, s.uuids)
    case Original(row) =>
      call.request.RetryDlq? && call.request.job in s.rows && SameFixed(s.rows[call.request.job], row)
    case PendingSeen(id) =>
      call.request.Cancel? && call.request.job in s.rows && s.rows[call.request.job].celeryId == id
    case Revoking =>
      && call.request.Cancel? && call.request.job in s.rows
      && s.rows[call.request.job].celeryId.Some? && s.rows[call.request.job].celeryId.value in s.revoked
    case Flushed(id, row) => OpenRow(s, call.request, id, row) && id !in s.sent
    case Sent(id, row) => OpenRow(s, call.request, id, row.(celeryId := None)) && RowSent(s, id, row)
    case Committed(id, row, _) => DoneRow(s, call.request, id) && SameFixed(s.rows[id], row)
    case Errored(id, row, _) => DoneRow(s, call.request, id) && SameFixed(s.rows[id], row)
    case Replied(Created(id, key)) => DoneRow(s, call.request, id) && s.rows[id].key == key
    case Replied(Existing(id, key)) =>
      call.request.Create? && call.request.key == key && id in s.rows && s.rows[id].key == key
    case _ => true
  }

  ghost predicate CallsOk(c: Config, w: World)
  {
    forall i :: 0 <= i < |w.calls| ==> CallOk(c, w.store, w.calls[i])
  }

  /** No two calls mint the same job id. */
  ghost predicate DistinctOk(w: World)
  {
    forall i, j :: 0 <= i < j < |w.calls| && Minted(w.calls[i].phase).Some? ==>
      Minted(w.calls[i].phase) != Minted(w.calls[j].phase)
  }

  ghost predicate DeliveriesOk(c: Config, w: World)
  {
    forall i :: 0 <= i < |w.deliveries| ==> DeliveryOk(c, w.store, w.deliveries[i])
  }

  ghost predicate StoreOk(c: Config, s: Store)
  {
    IndexOk(s) && DrawnOk(s) && SentOk(s) && ForestOk(c, s) && QueueOk(c, s) && DlqOk(s)
  }

  ghost predicate Inv(c: Config, w: World)
  {
    StoreOk(c, w.store) && CallsOk(c, w) && DistinctOk(w) && DeliveriesOk(c, w)
  }

  // ---------------------------------------------------------------------------
  // What no step takes away
  // ---------------------------------------------------------------------------

  /** Rows stay and keep their fixed columns; published messages and revocations are durable; time passes. */
  ghost predicate Extends(s: Store, t: Store)
  {
    && (forall j :: j in s.rows ==> j in t.rows && SameFixed(s.rows[j], t.rows[j]))
    && (forall j :: j in s.sent ==> j in t.sent && t.sent[j] == s.sent[j])
    && s.revoked <= t.revoked
    && s.uuids <= t.uuids
    && s.now <= t.now
  }

  lemma CallExtends(c: Config, s: Store, t: Store, call: Call)
    requires CallOk(c, s, call) && Extends(s, t)
    requires forall id :: Minted(call.phase) == Some(id) && id in s.pending ==>
               id in t.pending && t.pending[id] == s.pending[id]
    requires forall id :: Minted(call.phase) == Some(id) && id !in s.sent ==> id !in t.sent
    ensures CallOk(c, t, call)
  {
  }

  lemma DeliveryExtends(c: Config, s: Store, t: Store, d: Delivery)
    requires DeliveryOk(c, s, d) && Extends(s, t)
    ensures DeliveryOk(c, t, d)
  {
  }

  // ---------------------------------------------------------------------------
  // Worker steps
  // ---------------------------------------------------------------------------

  /** A worker step leaves everything the API owns alone, and only updates its own job's row. */
  ghost predicate WorkerFrame(s: Store, t: Store, job: JobId)
  {
    && t.pending == s.pending && t.index == s.index && t.sent == s.sent
    && t.revoked == s.revoked && t.uuids == s.uuids && t.now == s.now
    && t.rows.Keys == s.rows.Keys
    && (forall j :: j in s.rows ==> SameFixed(s.rows[j], t.rows[j]))
    && (forall j :: j in s.rows && j != job ==> t.rows[j] == s.rows[j])
  }

  lemma UpdateFrame(s: Store, job: JobId, status: Status, result: Value, increment: bool, ok: bool)
    ensures WorkerFrame(s, UpdateJobStatus(s, job, status, result, increment, ok), job)
  {
  }

  predicate Updates(p: Phase)
  {
    p.Starting? || p.Completing? || p.WritingFailed? || p.WritingDlq?
  }

  lemma OtherEffects(c: Config, s: Store, msg: Message, p: Phase, x: Choice)
    requires !Updates(p)
    ensures var t := Effect(c, s, msg, p, x);
            && t.rows == s.rows && t.pending == s.pending && t.index == s.index && t.sent == s.sent
            && t.revoked == s.revoked && t.uuids == s.uuids && t.now == s.now
  {
    if p.Counting? || p.CountingRetry? || p.CountingFailed? {
    } else if p.Requeueing? || p.DlqSending? {
    } else {
    }
  }

  lemma EffectFrame(c: Config, s: Store, msg: Message, p: Phase, x: Choice)
    ensures WorkerFrame(s, Effect(c, s, msg, p, x), msg.job)
  {
    match p
    case Starting => UpdateFrame(s, msg.job, RUNNING, Null, true, x.dbOk);
    case Completing(v, _) => UpdateFrame(s, msg.job, COMPLETED, v, false, x.dbOk);
    case WritingFailed(_) => UpdateFrame(s, msg.job, FAILED, Null, false, x.dbOk);
    case WritingDlq(_) => UpdateFrame(s, msg.job, DLQ, Null, false, x.dbOk);
    case _ => OtherEffects(c, s, msg, p, x);
  }

  lemma FrameForestOk(c: Config, s: Store, t: Store, job: JobId)
    requires ForestOk(c, s) && WorkerFrame(s, t, job)
    ensures ForestOk(c, t)
  {
    forall j | j in t.rows ensures LineageOk(c, t.rows, t.rows[j]) {
      assert LineageOk(c, s.rows, s.rows[j]);
    }
    forall j | j in t.pending ensures LineageOk(c, t.rows, t.pending[j]) {
      assert LineageOk(c, s.rows, s.pending[j]);
    }
  }

  lemma FrameStoreOk(c: Config, s: Store, t: Store, job: JobId)
    requires IndexOk(s) && DrawnOk(s) && SentOk(s) && ForestOk(c, s) && WorkerFrame(s, t, job)
    ensures IndexOk(t) && DrawnOk(t) && SentOk(t) && ForestOk(c, t) && Extends(s, t)
  {
    FrameForestOk(c, s, t, job);
    assert forall j :: j in t.rows ==> SameFixed(s.rows[j], t.rows[j]);
  }

  /** What a worker step publishes: a retry on the default queue, a report on the DLQ, nothing else. */
  lemma EffectPublishes(c: Config, s: Store, msg: Message, p: Phase, x: Choice)
    ensures var t := Effect(c, s, msg, p, x);
            t.queue == if p.Requeueing? then s.queue + [Envelope(NextRetry(msg, s.now), FromRetry, false)] else s.queue
    ensures var t := Effect(c, s, msg, p, x);
            t.dlq == if p.DlqSending? && x.dlqOk then s.dlq + [DlqMessage(msg.job, msg.task, msg.payload)] else s.dlq
  {
  }

  lemma EffectMessages(c: Config, s: Store, t: Store, d: Delivery, x: Choice)
    requires QueueOk(c, s) && DlqOk(s) && DeliveryOk(c, s, d)
    requires t == Effect(c, s, d.msg, d.phase, x) && t.sent == s.sent
    ensures QueueOk(c, t) && DlqOk(t)
  {
    EffectPublishes(c, s, d.msg, d.phase, x);
    forall q | 0 <= q < |t.queue| ensures MessageOk(c, t, t.queue[q].msg) {
      if q < |s.queue| {
        assert MessageOk(c, s, s.queue[q].msg);
      }
    }
    forall q | 0 <= q < |t.dlq| ensures DlqMessageOk(t, t.dlq[q]) {
      if q < |s.dlq| {
        assert DlqMessageOk(s, s.dlq[q]);
      }
    }
  }

  lemma WorkInv(c: Config, w: World, i: nat, x: Choice)
    requires Inv(c, w) && Enabled(w, Work(i, x))
    ensures Inv(c, Step(c, w, Work(i, x))) && Extends(w.store, Step(c, w, Work(i, x)).store)
  {
    var v := Step(c, w, Work(i, x));
    var d := w.deliveries[i];
    EffectFrame(c, w.store, d.msg, d.phase, x);
    FrameStoreOk(c, w.store, v.store, d.msg.job);
    EffectMessages(c, w.store, v.store, d, x);
    WorkCallsOk(c, w, v.store);
    forall k | 0 <= k < |v.deliveries| ensures DeliveryOk(c, v.store, v.deliveries[k]) {
      DeliveryExtends(c, w.store, v.store, w.deliveries[k]);
    }
  }

  /** The calls stay where their phases say when nothing the API owns moves. */
  lemma WorkCallsOk(c: Config, w: World, t: Store)
    requires CallsOk(c, w) && Extends(w.store, t) && t.pending == w.store.pending && t.sent == w.store.sent
    ensures CallsOk(c, w.(store := t))
  {
    forall k | 0 <= k < |w.calls| ensures CallOk(c, t, w.calls[k]) {
      CallExtends(c, w.store, t, w.calls[k]);
    }
  }

  /** Broker and clock events touch only the queue and the clock. */
  lemma BrokerStoreOk(c: Config, s: Store, t: Store)
    requires StoreOk(c, s) && s.now <= t.now
    requires t == s.(queue := t.queue, now := t.now) && QueueOk(c, t)
    ensures StoreOk(c, t) && Extends(s, t)
  {
    BrokerRowsOk(c, s, t);
    forall q | 0 <= q < |t.dlq| ensures DlqMessageOk(t, t.dlq[q]) {
      assert DlqMessageOk(s, s.dlq[q]);
    }
  }

  lemma BrokerRowsOk(c: Config, s: Store, t: Store)
    requires IndexOk(s) && DrawnOk(s) && SentOk(s) && ForestOk(c, s) && s.now <= t.now
    requires t == s.(queue := t.queue, now := t.now)
    ensures IndexOk(t) && DrawnOk(t) && SentOk(t) && ForestOk(c, t) && Extends(s, t)
  {
    forall j | j in t.rows ensures RowSent(t, j, t.rows[j]) && LineageOk(c, t.rows, t.rows[j]) {
      assert RowSent(s, j, s.rows[j]) && LineageOk(c, s.rows, s.rows[j]);
    }
    forall j | j in t.pending ensures LineageOk(c, t.rows, t.pending[j]) {
      assert LineageOk(c, s.rows, s.pending[j]);
    }
  }

  lemma BrokerQueueOk(c: Config, w: World, e: Event)
    requires QueueOk(c, w.store) && DeliveriesOk(c, w)
    requires Enabled(w, e) && (e.Deliver? || e.Crash? || e.Redeliver? || e.Tick? || e.Open?)
    ensures var t := Step(c, w, e).store;
            QueueOk(c, t) && t == w.store.(queue := t.queue, now := t.now) && w.store.now <= t.now
  {
    var t := Step(c, w, e).store;
    forall q | 0 <= q < |t.queue| ensures MessageOk(c, t, t.queue[q].msg) {
      if q < |w.store.queue| {
        assert MessageOk(c, w.store, w.store.queue[q].msg);
      } else {
        assert DeliveryOk(c, w.store, w.deliveries[e.delivery]);
      }
    }
  }

  lemma BrokerInv(c: Config, w: World, e: Event)
    requires Inv(c, w) && Enabled(w, e) && (e.Deliver? || e.Crash? || e.Redeliver? || e.Tick? || e.Open?)
    ensures Inv(c, Step(c, w, e)) && Extends(w.store, Step(c, w, e).store)
  {
    var v := Step(c, w, e);
    BrokerQueueOk(c, w, e);
    BrokerStoreOk(c, w.store, v.store);
    WorkCallsOk(c, w, v.store);
    forall k | 0 <= k < |v.calls| ensures CallOk(c, v.store, v.calls[k]) {
      if k < |w.calls| {
        assert CallOk(c, v.store, w.calls[k]);
      }
    }
    forall k | 0 <= k < |v.deliveries| ensures DeliveryOk(c, v.store, v.deliveries[k]) {
      if k < |w.deliveries| {
        DeliveryExtends(c, w.store, v.store, w.deliveries[k]);
      } else {
        assert MessageOk(c, w.store, w.store.queue[e.envelope].msg);
      }
    }
  }

  // ---------------------------------------------------------------------------
  // API steps
  // ---------------------------------------------------------------------------

  /** Messages stay well formed when the API's record of what it published only grows. */
  lemma MessagesExtend(c: Config, s: Store, t: Store)
    requires QueueOk(c, s) && DlqOk(s) && Extends(s, t) && t.queue == s.queue && t.dlq == s.dlq
    ensures QueueOk(c, t) && DlqOk(t)
  {
    forall q | 0 <= q < |t.queue| ensures MessageOk(c, t, t.queue[q].msg) {
      assert MessageOk(c, s, s.queue[q].msg);
    }
    forall q | 0 <= q < |t.dlq| ensures DlqMessageOk(t, t.dlq[q]) {
      assert DlqMessageOk(s, s.dlq[q]);
    }
  }

  lemma InsertIndexOk(s: Store, t: Store, id: JobId, row: Row)
    requires IndexOk(s) && id !in s.rows && id !in s.pending && row.key !in s.index
    requires t.rows == s.rows && t.pending == s.pending[id := row] && t.index == s.index[row.key := id]
    ensures IndexOk(t)
  {
  }

  lemma InsertRestOk(c: Config, s: Store, t: Store, id: JobId, row: Row)
    requires DrawnOk(s) && SentOk(s) && ForestOk(c, s) && LineageOk(c, s.rows, row)
    requires t.rows == s.rows && t.pending == s.pending[id := row] && t.sent == s.sent
    requires id < t.uuids && s.uuids <= t.uuids && KnownKey(row.key, t.uuids)
    ensures DrawnOk(t) && SentOk(t) && ForestOk(c, t)
  {
    forall j | j in t.rows ensures RowSent(t, j, t.rows[j]) {
      assert RowSent(s, j, s.rows[j]);
    }
    forall j | j in t.rows ensures LineageOk(c, t.rows, t.rows[j]) {
      assert LineageOk(c, s.rows, s.rows[j]);
    }
    forall j | j in t.pending ensures LineageOk(c, t.rows, t.pending[j]) {
      if j != id {
        assert LineageOk(c, s.rows, s.pending[j]);
      }
    }
  }

  lemma FlushOk(c: Config, s: Store, t: Store, id: JobId, row: Row, drawn: nat, here: CallPhase)
    requires StoreOk(c, s) && s.uuids <= id < s.uuids + drawn && KnownKey(row.key, s.uuids + drawn)
    requires LineageOk(c, s.rows, row)
    requires t == Flush(s, id, row, drawn, here).0
    ensures StoreOk(c, t) && Extends(s, t)
  {
    if row.key !in s.index {
      assert id !in s.rows && id !in s.pending;
      InsertOk(c, s, t, id, row);
    }
  }

  lemma InsertOk(c: Config, s: Store, t: Store, id: JobId, row: Row)
    requires StoreOk(c, s) && id !in s.rows && id !in s.pending && row.key !in s.index && LineageOk(c, s.rows, row)
    requires t == s.(pending := s.pending[id := row], index := s.index[row.key := id], uuids := t.uuids)
    requires id < t.uuids && s.uuids <= t.uuids && KnownKey(row.key, t.uuids)
    ensures StoreOk(c, t) && Extends(s, t)
  {
    InsertIndexOk(s, t, id, row);
    InsertRestOk(c, s, t, id, row);
    MessagesExtend(c, s, t);
  }

  lemma RollBackOk(c: Config, s: Store, id: JobId, key: Key)
    requires StoreOk(c, s) && id in s.pending && s.pending[id].key == key
    ensures StoreOk(c, RollBack(s, id, key)) && Extends(s, RollBack(s, id, key))
  {
    var t := RollBack(s, id, key);
    RollBackIndexOk(s, t, id, key);
    RollBackRestOk(c, s, t, id);
    MessagesExtend(c, s, t);
  }

  lemma RollBackIndexOk(s: Store, t: Store, id: JobId, key: Key)
    requires IndexOk(s) && id in s.pending && s.pending[id].key == key
    requires t.rows == s.rows && t.pending == s.pending - {id} && t.index == s.index - {key}
    ensures IndexOk(t)
  {
    assert forall k :: k in t.index <==> k in s.index && k != key;
  }

  lemma RollBackRestOk(c: Config, s: Store, t: Store, id: JobId)
    requires DrawnOk(s) && SentOk(s) && ForestOk(c, s)
    requires t.rows == s.rows && t.pending == s.pending - {id} && t.sent == s.sent && t.uuids == s.uuids
    ensures DrawnOk(t) && SentOk(t) && ForestOk(c, t)
  {
    forall j | j in t.rows ensures RowSent(t, j, t.rows[j]) && LineageOk(c, t.rows, t.rows[j]) {
      assert RowSent(s, j, s.rows[j]) && LineageOk(c, s.rows, s.rows[j]);
    }
    forall j | j in t.pending ensures LineageOk(c, t.rows, t.pending[j]) {
      assert LineageOk(c, s.rows, s.pending[j]);
    }
  }

  lemma PublishSentOk(s: Store, t: Store, id: JobId, msg: Message)
    requires SentOk(s) && DrawnOk(s) && id !in s.sent && id !in s.rows && id < s.uuids
    requires msg.id == s.uuids && msg.job == id && msg.retries == 0 && KnownKey(msg.key, s.uuids)
    requires t.sent == s.sent[id := msg] && t.rows == s.rows && t.pending == s.pending && t.uuids == s.uuids + 1
    ensures SentOk(t) && DrawnOk(t)
  {
    PublishDrawnOk(s, t, id, msg);
    forall j | j in t.rows ensures RowSent(t, j, t.rows[j]) {
      assert RowSent(s, j, s.rows[j]);
    }
  }

  lemma PublishDrawnOk(s: Store, t: Store, id: JobId, msg: Message)
    requires DrawnOk(s) && id < s.uuids && msg.id == s.uuids && KnownKey(msg.key, s.uuids)
    requires t.sent == s.sent[id := msg] && t.rows == s.rows && t.pending == s.pending && t.uuids == s.uuids + 1
    ensures DrawnOk(t)
  {
  }

  lemma PublishForestOk(c: Config, s: Store, t: Store, id: JobId, msg: Message)
    requires ForestOk(c, s) && msg.task in c.allowed
    requires t.sent == s.sent[id := msg] && t.rows == s.rows && t.pending == s.pending
    ensures ForestOk(c, t)
  {
    forall j | j in t.rows ensures LineageOk(c, t.rows, t.rows[j]) {
      assert LineageOk(c, s.rows, s.rows[j]);
    }
    forall j | j in t.pending ensures LineageOk(c, t.rows, t.pending[j]) {
      assert LineageOk(c, s.rows, s.pending[j]);
    }
  }

  lemma PublishOk(c: Config, s: Store, id: JobId, row: Row)
    requires StoreOk(c, s) && id in s.pending && s.pending[id] == row && id !in s.sent
    ensures StoreOk(c, Publish(s, id, row).0) && Extends(s, Publish(s, id, row).0)
  {
    var t := Publish(s, id, row).0;
    var msg := t.sent[id];
    LineageAllowed(c, s, row);
    PublishSentOk(s, t, id, msg);
    PublishForestOk(c, s, t, id, msg);
    forall q | 0 <= q < |t.queue| ensures MessageOk(c, t, t.queue[q].msg) {
      if q < |s.queue| {
        assert MessageOk(c, s, s.queue[q].msg);
      }
    }
    forall q | 0 <= q < |t.dlq| ensures DlqMessageOk(t, t.dlq[q]) {
      assert DlqMessageOk(s, s.dlq[q]);
    }
  }

  /** A row with a well-formed lineage names a whitelisted task, because its committed parent was published. */
  lemma LineageAllowed(c: Config, s: Store, row: Row)
    requires SentOk(s) && ForestOk(c, s) && LineageOk(c, s.rows, row)
    ensures row.task in c.allowed
  {
    if row.parent.Some? {
      assert RowSent(s, row.parent.value, s.rows[row.parent.value]);
    }
  }

  lemma CommitForestOk(c: Config, s: Store, id: JobId, row: Row)
    requires ForestOk(c, s) && id in s.pending && id !in s.rows && s.pending[id] == row.(celeryId := None)
    ensures ForestOk(c, Commit(s, id, row))
  {
    var t := Commit(s, id, row);
    assert LineageOk(c, s.rows, s.pending[id]);
    forall j | j in t.rows ensures LineageOk(c, t.rows, t.rows[j]) {
      if j != id {
        assert LineageOk(c, s.rows, s.rows[j]);
      }
    }
    forall j | j in t.pending ensures LineageOk(c, t.rows, t.pending[j]) {
      assert LineageOk(c, s.rows, s.pending[j]);
    }
  }

  lemma CommitIndexOk(s: Store, id: JobId, row: Row)
    requires IndexOk(s) && id in s.pending && s.pending[id].key == row.key
    ensures IndexOk(Commit(s, id, row))
  {
    assert id !in s.rows;
  }

  lemma CommitOk(c: Config, s: Store, id: JobId, row: Row)
    requires StoreOk(c, s) && id in s.pending && s.pending[id] == row.(celeryId := None) && RowSent(s, id, row)
    ensures StoreOk(c, Commit(s, id, row)) && Extends(s, Commit(s, id, row))
  {
    var t := Commit(s, id, row);
    assert id !in s.rows;
    CommitIndexOk(s, id, row);
    CommitForestOk(c, s, id, row);
    CommitSentOk(s, id, row);
    CommitExtends(s, id, row);
    MessagesExtend(c, s, t);
  }

  lemma CommitExtends(s: Store, id: JobId, row: Row)
    requires id !in s.rows
    ensures Extends(s, Commit(s, id, row))
  {
  }

  lemma CommitSentOk(s: Store, id: JobId, row: Row)
    requires SentOk(s) && DrawnOk(s) && id in s.pending && s.pending[id].key == row.key && RowSent(s, id, row)
    ensures SentOk(Commit(s, id, row)) && DrawnOk(Commit(s, id, row))
  {
    var t := Commit(s, id, row);
    forall j | j in t.rows ensures RowSent(t, j, t.rows[j]) {
      if j != id {
        assert RowSent(s, j, s.rows[j]);
      }
    }
  }

  lemma SetCancelledFrame(s: Store, job: JobId)
    ensures WorkerFrame(s, SetCancelled(s, job), job)
    ensures SetCancelled(s, job).queue == s.queue && SetCancelled(s, job).dlq == s.dlq
  {
  }

  lemma SetCancelledOk(c: Config, s: Store, job: JobId)
    requires StoreOk(c, s)
    ensures StoreOk(c, SetCancelled(s, job)) && Extends(s, SetCancelled(s, job))
  {
    var t := SetCancelled(s, job);
    SetCancelledFrame(s, job);
    FrameStoreOk(c, s, t, job);
    MessagesExtend(c, s, t);
  }

  /** The row a retry inserts continues its parent's lineage. */
  lemma RetryLineage(c: Config, rows: map<JobId, Row>, job: JobId, row: Row, key: Key)
    requires job in rows && SameFixed(rows[job], row) && key.DlqRetry?
    ensures LineageOk(c, rows, NewRow(row.task, row.payload, key, row.retryCount + 1, Some(job)))
  {
  }

  lemma OriginalProceeds(c: Config, s: Store, call: Call)
    requires call.phase.Original? && call.request.RetryDlq?
    ensures var row := call.phase.row;
            CallProceeds(c, s, call) ==
            Flush(s, s.uuids + 1, NewRow(row.task, row.payload, DlqRetry(s.uuids), row.retryCount + 1,
                                         Some(call.request.job)), 2, call.phase)
  {
  }

  lemma OriginalOk(c: Config, s: Store, t: Store, job: JobId, row: Row, here: CallPhase)
    requires StoreOk(c, s) && job in s.rows && SameFixed(s.rows[job], row)
    requires t == Flush(s, s.uuids + 1, NewRow(row.task, row.payload, DlqRetry(s.uuids), row.retryCount + 1, Some(job)),
                        2, here).0
    ensures StoreOk(c, t) && Extends(s, t)
  {
    var key := DlqRetry(s.uuids);
    RetryLineage(c, s.rows, job, row, key);
    FlushOk(c, s, t, s.uuids + 1, NewRow(row.task, row.payload, key, row.retryCount + 1, Some(job)), 2, here);
  }

  lemma AbsentOk(c: Config, s: Store, t: Store, call: Call)
    requires StoreOk(c, s) && CallOk(c, s, call) && call.phase.Absent?
    requires t == CallProceeds(c, s, call).0
    ensures StoreOk(c, t) && Extends(s, t)
  {
    var r := call.request;
    FlushOk(c, s, t, s.uuids, NewRow(r.task, r.payload, r.key, 0, None), 1, Absent);
  }

  /** Steps that change neither rows, nor messages, nor the index. */
  lemma QuietOk(c: Config, s: Store, t: Store)
    requires StoreOk(c, s)
    requires t.rows == s.rows && t.pending == s.pending && t.index == s.index && t.sent == s.sent
    requires t.queue == s.queue && t.dlq == s.dlq && t.uuids == s.uuids && t.now == s.now && s.revoked <= t.revoked
    ensures StoreOk(c, t) && Extends(s, t)
  {
    MessagesExtend(c, s, t);
    forall j | j in t.rows ensures RowSent(t, j, t.rows[j]) {
      assert RowSent(s, j, s.rows[j]);
    }
  }

  lemma ProceedsOk(c: Config, s: Store, t: Store, call: Call)
    requires StoreOk(c, s) && CallOk(c, s, call)
    requires t == CallProceeds(c, s, call).0
    ensures StoreOk(c, t) && Extends(s, t)
  {
    if call.phase.Original? {
      OriginalProceeds(c, s, call);
      OriginalOk(c, s, t, call.request.job, call.phase.row, call.phase);
    } else {
      OthersOk(c, s, t, call);
    }
  }

  lemma OthersOk(c: Config, s: Store, t: Store, call: Call)
    requires StoreOk(c, s) && CallOk(c, s, call) && !call.phase.Original?
    requires t == CallProceeds(c, s, call).0
    ensures StoreOk(c, t) && Extends(s, t)
  {
    match call.phase
    case Absent => AbsentOk(c, s, t, call);
    case Flushed(id, row) => PublishOk(c, s, id, row);
    case Sent(id, row) => CommitOk(c, s, id, row);
    case _ => RestOk(c, s, t, call);
  }

  lemma RestOk(c: Config, s: Store, t: Store, call: Call)
    requires StoreOk(c, s) && CallOk(c, s, call) && t == CallProceeds(c, s, call).0
    requires !call.phase.Original? && !call.phase.Absent? && !call.phase.Flushed? && !call.phase.Sent?
    ensures StoreOk(c, t) && Extends(s, t)
  {
    if call.phase.Revoking? {
      SetCancelledOk(c, s, call.request.job);
    } else {
      QuietCall(c, s, call);
      QuietOk(c, s, t);
    }
  }

  lemma QuietCall(c: Config, s: Store, call: Call)
    requires !call.phase.Original? && !call.phase.Absent? && !call.phase.Flushed? && !call.phase.Sent?
    requires !call.phase.Revoking?
    ensures var t := CallProceeds(c, s, call).0;
            && t.rows == s.rows && t.pending == s.pending && t.index == s.index && t.sent == s.sent
            && t.queue == s.queue && t.dlq == s.dlq && t.uuids == s.uuids && t.now == s.now && s.revoked <= t.revoked
  {
  }

  lemma RaisesOk(c: Config, s: Store, call: Call)
    requires StoreOk(c, s) && CallOk(c, s, call)
    ensures StoreOk(c, CallRaises(s, call).0) && Extends(s, CallRaises(s, call).0)
  {
    match call.phase
    case Flushed(id, row) => RollBackOk(c, s, id, row.key);
    case Sent(id, row) => RollBackOk(c, s, id, row.key);
    case _ =>
  }

  lemma LookOk(c: Config, s: Store, call: Call)
    requires IndexOk(s) && CallOk(c, s, call) && call.phase.Opened?
    ensures CallOk(c, s, call.(phase := Look(c, s, call.request)))
  {
  }

  lemma FlushSelfOk(c: Config, s: Store, call: Call)
    requires DrawnOk(s) && CallOk(c, s, call) && (call.phase.Absent? || call.phase.Original?)
    ensures var (t, p) := CallProceeds(c, s, call); CallOk(c, t, call.(phase := p))
  {
    assert s.uuids !in s.sent && s.uuids + 1 !in s.sent;
  }

  lemma LaterSelfOk(c: Config, s: Store, call: Call)
    requires CallOk(c, s, call) && !call.phase.Opened? && !call.phase.Absent? && !call.phase.Original?
    requires call.phase.PendingSeen? ==> RowSent(s, call.request.job, s.rows[call.request.job])
    ensures var (t, p) := CallProceeds(c, s, call); CallOk(c, t, call.(phase := p))
  {
  }

  /** The call that steps is again where its phase says. */
  lemma SelfOk(c: Config, s: Store, call: Call, raises: bool)
    requires StoreOk(c, s) && CallOk(c, s, call)
    ensures var (t, p) := CallStep(c, s, call, raises); CallOk(c, t, call.(phase := p))
  {
    if raises {
    } else if call.phase.Opened? {
      LookOk(c, s, call);
    } else if call.phase.Absent? || call.phase.Original? {
      FlushSelfOk(c, s, call);
    } else {
      LaterSelfOk(c, s, call);
    }
  }

  /** A step touches the open row of no other call. */
  lemma OthersPending(c: Config, s: Store, call: Call, raises: bool, id: JobId)
    requires StoreOk(c, s) && CallOk(c, s, call) && Minted(call.phase) != Some(id) && id < s.uuids
    ensures var t := CallStep(c, s, call, raises).0;
            && (id in s.pending ==> id in t.pending && t.pending[id] == s.pending[id])
            && (id !in s.sent ==> id !in t.sent)
  {
    if !raises && (call.phase.Absent? || call.phase.Original?) {
      InsertPending(c, s, call, id);
    }
  }

  lemma InsertPending(c: Config, s: Store, call: Call, id: JobId)
    requires (call.phase.Absent? || call.phase.Original?) && id < s.uuids
    ensures var t := CallProceeds(c, s, call).0;
            (id in s.pending ==> id in t.pending && t.pending[id] == s.pending[id]) && t.sent == s.sent
  {
  }

  /** A step keeps the id its call has minted, mints a fresh one, or gives it up. */
  lemma MintedStep(c: Config, s: Store, call: Call, raises: bool)
    requires StoreOk(c, s) && CallOk(c, s, call)
    ensures var q := Minted(CallStep(c, s, call, raises).1);
            q == None || q == Minted(call.phase) || q == Some(s.uuids) || q == Some(s.uuids + 1)
    ensures var q := Minted(CallStep(c, s, call, raises).1);
            Minted(call.phase).Some? ==> q == None || q == Minted(call.phase)
  {
  }

  lemma MintedDrawn(c: Config, s: Store, call: Call)
    requires StoreOk(c, s) && CallOk(c, s, call) && Minted(call.phase).Some?
    ensures Minted(call.phase).value < s.uuids
  {
  }

  lemma ApiCallsOk(c: Config, w: World, i: nat, raises: bool)
    requires Inv(c, w) && i < |w.calls|
    requires Extends(w.store, Step(c, w, Api(i, raises)).store)
    ensures CallsOk(c, Step(c, w, Api(i, raises)))
  {
    var v := Step(c, w, Api(i, raises));
    SelfOk(c, w.store, w.calls[i], raises);
    forall k | 0 <= k < |v.calls| && k != i ensures CallOk(c, v.store, v.calls[k]) {
      var m := Minted(w.calls[k].phase);
      if m.Some? {
        MintedDrawn(c, w.store, w.calls[k]);
        assert Minted(w.calls[i].phase) != m by {
          if k < i {
            assert Minted(w.calls[k].phase) != Minted(w.calls[i].phase);
          }
        }
        OthersPending(c, w.store, w.calls[i], raises, m.value);
      }
      CallExtends(c, w.store, v.store, w.calls[k]);
    }
  }

  lemma ApiDistinctOk(c: Config, w: World, i: nat, raises: bool)
    requires Inv(c, w) && i < |w.calls|
    ensures DistinctOk(Step(c, w, Api(i, raises)))
  {
    var v := Step(c, w, Api(i, raises));
    MintedStep(c, w.store, w.calls[i], raises);
    forall a, b | 0 <= a < b < |v.calls| && Minted(v.calls[a].phase).Some?
      ensures Minted(v.calls[a].phase) != Minted(v.calls[b].phase)
    {
      if a != i && Minted(w.calls[a].phase).Some? {
        MintedDrawn(c, w.store, w.calls[a]);
      }
      if b != i && Minted(w.calls[b].phase).Some? {
        MintedDrawn(c, w.store, w.calls[b]);
      }
      if Minted(w.calls[a].phase).Some? {
        assert Minted(w.calls[a].phase) != Minted(w.calls[b].phase);
      }
    }
  }

  lemma ApiInv(c: Config, w: World, i: nat, raises: bool)
    requires Inv(c, w) && i < |w.calls|
    ensures Inv(c, Step(c, w, Api(i, raises))) && Extends(w.store, Step(c, w, Api(i, raises)).store)
  {
    var v := Step(c, w, Api(i, raises));
    if raises {
      RaisesOk(c, w.store, w.calls[i]);
    } else {
      ProceedsOk(c, w.store, v.store, w.calls[i]);
    }
    ApiCallsOk(c, w, i, raises);
    ApiDistinctOk(c, w, i, raises);
    forall k | 0 <= k < |v.deliveries| ensures DeliveryOk(c, v.store, v.deliveries[k]) {
      DeliveryExtends(c, w.store, v.store, w.deliveries[k]);
    }
  }

  // ---------------------------------------------------------------------------
  // Every step, every run
  // ---------------------------------------------------------------------------

  lemma StepInv(c: Config, w: World, e: Event)
    requires Inv(c, w)
    ensures Inv(c, Step(c, w, e)) && Extends(w.store, Step(c, w, e).store)
  {
    if Enabled(w, e) {
      match e
      case Work(i, x) => WorkInv(c, w, i, x);
      case Api(i, raises) => ApiInv(c, w, i, raises);
      case _ => BrokerInv(c, w, e);
    }
  }

  /** A committed row stays, whatever happens, with its fixed columns. */
  lemma RowStaysCommitted(c: Config, w: World, e: Event, j: JobId)
    requires Inv(c, w) && j in w.store.rows
    ensures var t := Step(c, w, e).store;
            j in t.rows && SameFixed(w.store.rows[j], t.rows[j]) && w.store.revoked <= t.revoked
  {
    StepInv(c, w, e);
  }

  lemma {:induction false} RunInv(c: Config, es: seq<Event>)
    ensures Inv(c, Run(c, es))
  {
    if es != [] {
      RunInv(c, es[..|es| - 1]);
      StepInv(c, Run(c, es[..|es| - 1]), es[|es| - 1]);
    }
  }

  /** Running `es` and then `fs`. */
  lemma {:induction false} RunMore(c: Config, es: seq<Event>, fs: seq<Event>)
    ensures fs != [] ==> Run(c, es + fs) == Step(c, Run(c, es + fs[..|fs| - 1]), fs[|fs| - 1])
    ensures fs == [] ==> Run(c, es + fs) == Run(c, es)
  {
    if fs == [] {
      assert es + fs == es;
    } else {
      assert (es + fs)[..|es + fs| - 1] == es + fs[..|fs| - 1];
    }
  }

  lemma OneMoreEvent(c: Config, es: seq<Event>, e: Event)
    ensures Run(c, es + [e]) == Step(c, Run(c, es), e)
  {
    assert (es + [e])[..|es|] == es;
  }

  /** A committed row is there, with its fixed columns, in every continuation. */
  lemma {:induction false} RowForever(c: Config, es: seq<Event>, fs: seq<Event>, j: JobId)
    requires j in Run(c, es).store.rows
    ensures j in Run(c, es + fs).store.rows && SameFixed(Run(c, es).store.rows[j], Run(c, es + fs).store.rows[j])
  {
    RunMore(c, es, fs);
    if fs != [] {
      var gs := fs[..|fs| - 1];
      RowForever(c, es, gs, j);
      RunInv(c, es + gs);
      RowStaysCommitted(c, Run(c, es + gs), fs[|fs| - 1], j);
    }
  }
}
