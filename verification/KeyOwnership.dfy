/**
 Whose messages carry a job's idempotency key: a DLQ retry's key is its own, a client's key is the
 job's own exactly when no call with that key was rolled back after its send.
 */
module KeyOwnership {
  import opened JobModel
  import opened Protocol
  import opened ApiInvariant
  import opened CreateRace
  import opened Lineage
  import opened Attempts
  import opened JobStatusHistory
  import opened Idempotency
  import opened Sums

  // ---------------------------------------------------------------------------
  // DLQ retries
  // ---------------------------------------------------------------------------

  /** Only job `j` was ever published with the key of this row. */
  ghost predicate SoleSender(s: Store, j: JobId, row: Row)
  {
    forall i {:trigger s.sent[i]} :: i in s.sent && s.sent[i].key == row.key ==> i == j
  }

  ghost predicate RetryKeysOwn(s: Store)
  {
    && (forall j {:trigger s.rows[j]} :: j in s.rows && s.rows[j].parent.Some? ==> SoleSender(s, j, s.rows[j]))
    && (forall j {:trigger s.pending[j]} ::
          j in s.pending && s.pending[j].parent.Some? ==> SoleSender(s, j, s.pending[j]))
  }

  lemma FlushOwn(s: Store, t: Store, id: JobId, row: Row)
    requires DrawnOk(s) && RetryKeysOwn(s) && t.sent == s.sent
    requires t.rows == s.rows && (t.pending == s.pending || t.pending == s.pending[id := row])
    requires row.parent.Some? ==> row.key == DlqRetry(s.uuids)
    ensures RetryKeysOwn(t)
  {
    forall j | j in t.pending && t.pending[j].parent.Some? ensures SoleSender(t, j, t.pending[j]) {
      if j in s.pending && t.pending[j] == s.pending[j] {
        assert SoleSender(s, j, s.pending[j]);
      }
    }
  }

  lemma PublishOwn(s: Store, t: Store, id: JobId, msg: Message)
    requires IndexOk(s) && RetryKeysOwn(s) && id in s.pending && msg.key == s.pending[id].key
    requires t.sent == s.sent[id := msg] && t.rows == s.rows && t.pending == s.pending
    ensures RetryKeysOwn(t)
  {
    forall j | j in t.rows && t.rows[j].parent.Some? ensures SoleSender(t, j, t.rows[j]) {
      assert SoleSender(s, j, s.rows[j]);
    }
    forall j | j in t.pending && t.pending[j].parent.Some? ensures SoleSender(t, j, t.pending[j]) {
      assert SoleSender(s, j, s.pending[j]);
    }
  }

  lemma CommitOwn(s: Store, t: Store, id: JobId, row: Row)
    requires RetryKeysOwn(s) && id in s.pending && s.pending[id] == row.(celeryId := None)
    requires t.sent == s.sent && t.rows == s.rows[id := row] && t.pending == s.pending - {id}
    ensures RetryKeysOwn(t)
  {
    assert s.pending[id].parent == row.parent && s.pending[id].key == row.key;
    forall j | j in t.rows && t.rows[j].parent.Some? ensures SoleSender(t, j, t.rows[j]) {
      if j != id {
        assert SoleSender(s, j, s.rows[j]);
      } else {
        assert SoleSender(s, j, s.pending[j]);
      }
    }
    forall j | j in t.pending && t.pending[j].parent.Some? ensures SoleSender(t, j, t.pending[j]) {
      assert SoleSender(s, j, s.pending[j]);
    }
  }

  /** Rows keep their key and parent; nothing new is published or inserted. */
  lemma QuietOwn(s: Store, t: Store)
    requires RetryKeysOwn(s) && t.sent == s.sent
    requires forall j :: j in t.pending ==> j in s.pending && t.pending[j] == s.pending[j]
    requires forall j :: j in t.rows ==> j in s.rows && SameFixed(s.rows[j], t.rows[j])
    ensures RetryKeysOwn(t)
  {
    forall j | j in t.rows && t.rows[j].parent.Some? ensures SoleSender(t, j, t.rows[j]) {
      assert SameFixed(s.rows[j], t.rows[j]);
      assert SoleSender(s, j, s.rows[j]);
    }
    forall j | j in t.pending && t.pending[j].parent.Some? ensures SoleSender(t, j, t.pending[j]) {
      assert SoleSender(s, j, s.pending[j]);
    }
  }

  lemma FlushCallOwn(c: Config, s: Store, t: Store, call: Call)
    requires DrawnOk(s) && RetryKeysOwn(s) && t == CallProceeds(c, s, call).0
    requires (call.phase.Absent? && call.request.Create?) || (call.phase.Original? && call.request.RetryDlq?)
    ensures RetryKeysOwn(t)
  {
    if call.phase.Absent? {
      FlushOwn(s, t, s.uuids, NewRow(call.request.task, call.request.payload, call.request.key, 0, None));
    } else {
      OriginalProceeds(c, s, call);
      var row := call.phase.row;
      FlushOwn(s, t, s.uuids + 1,
               NewRow(row.task, row.payload, DlqRetry(s.uuids), row.retryCount + 1, Some(call.request.job)));
    }
  }

  lemma WriteCallOwn(c: Config, s: Store, t: Store, call: Call)
    requires IndexOk(s) && CallOk(c, s, call) && RetryKeysOwn(s) && t == CallProceeds(c, s, call).0
    requires call.phase.Flushed? || call.phase.Sent?
    ensures RetryKeysOwn(t)
  {
    if call.phase.Flushed? {
      PublishOwn(s, t, call.phase.id, t.sent[call.phase.id]);
    } else {
      CommitOwn(s, t, call.phase.id, call.phase.row);
    }
  }

  lemma RestCallRows(c: Config, s: Store, t: Store, call: Call)
    requires t == CallProceeds(c, s, call).0
    requires !call.phase.Absent? && !call.phase.Original? && !call.phase.Flushed? && !call.phase.Sent?
    ensures t.sent == s.sent && t.pending == s.pending && t.rows.Keys == s.rows.Keys
    ensures forall j :: j in s.rows ==> SameFixed(s.rows[j], t.rows[j])
  {
    if call.phase.Revoking? && call.request.Cancel? {
      SetCancelledFrame(s, call.request.job);
    } else {
      assert t.rows == s.rows;
    }
  }

  lemma RestCallOwn(c: Config, s: Store, t: Store, call: Call)
    requires RetryKeysOwn(s) && t == CallProceeds(c, s, call).0
    requires !call.phase.Absent? && !call.phase.Original? && !call.phase.Flushed? && !call.phase.Sent?
    ensures RetryKeysOwn(t)
  {
    RestCallRows(c, s, t, call);
    QuietOwn(s, t);
  }

  lemma RaiseOwn(s: Store, t: Store, call: Call)
    requires RetryKeysOwn(s) && t == CallRaises(s, call).0
    ensures RetryKeysOwn(t)
  {
    QuietOwn(s, t);
  }

  lemma CallOwn(c: Config, s: Store, t: Store, call: Call, raises: bool)
    requires IndexOk(s) && DrawnOk(s) && CallOk(c, s, call) && RetryKeysOwn(s)
    requires t == CallStep(c, s, call, raises).0
    ensures RetryKeysOwn(t)
  {
    if raises {
      RaiseOwn(s, t, call);
    } else if call.phase.Absent? || call.phase.Original? {
      FlushCallOwn(c, s, t, call);
    } else if call.phase.Flushed? || call.phase.Sent? {
      WriteCallOwn(c, s, t, call);
    } else {
      RestCallOwn(c, s, t, call);
    }
  }

  lemma StepOwns(c: Config, w: World, e: Event, t: Store)
    requires IndexOk(w.store) && DrawnOk(w.store) && CallsOk(c, w) && RetryKeysOwn(w.store)
    requires t == Step(c, w, e).store
    ensures RetryKeysOwn(t)
  {
    if Enabled(w, e) && e.Api? {
      CallOwn(c, w.store, t, w.calls[e.call], e.raises);
    } else {
      if Enabled(w, e) && e.Work? {
        EffectFrame(c, w.store, w.deliveries[e.delivery].msg, w.deliveries[e.delivery].phase, e.x);
      }
      QuietOwn(w.store, t);
    }
  }

  lemma {:induction false} RunOwns(c: Config, es: seq<Event>)
    ensures RetryKeysOwn(Run(c, es).store)
  {
    if es != [] {
      RunOwns(c, es[..|es| - 1]);
      RunInv(c, es[..|es| - 1]);
      StepOwns(c, Run(c, es[..|es| - 1]), es[|es| - 1], Run(c, es).store);
    }
  }

  lemma RetryStepLeavesRows(c: Config, s: Store, call: Call, raises: bool, j: JobId)
    requires IndexOk(s) && CallOk(c, s, call) && call.request.RetryDlq? && j in s.rows
    ensures var t := CallStep(c, s, call, raises).0; j in t.rows && t.rows[j] == s.rows[j]
  {
  }

  /** Retrying a DLQ job changes no row but the new one: the original stays as it was. */
  lemma RetryLeavesRows(c: Config, es: seq<Event>, i: nat, raises: bool, j: JobId)
    requires i < |Run(c, es).calls| && Run(c, es).calls[i].request.RetryDlq? && j in Run(c, es).store.rows
    ensures var w := Run(c, es + [Api(i, raises)]);
            j in w.store.rows && w.store.rows[j] == Run(c, es).store.rows[j]
  {
    assert (es + [Api(i, raises)])[..|es|] == es;
    RunInv(c, es);
    var w := Run(c, es);
    RetryStepLeavesRows(c, w.store, w.calls[i], raises, j);
  }

  // ---------------------------------------------------------------------------
  // Client keys
  // ---------------------------------------------------------------------------

  /** The call that inserted a committed row. */
  ghost predicate HasMaker(w: World, j: JobId)
  {
    exists i :: 0 <= i < |w.calls| && Minted(w.calls[i].phase) == Some(j) && MakerDone(w.calls[i].phase)
  }

  predicate MakerDone(p: CallPhase)
  {
    p.Committed? || p.Errored? || p.Replied?
  }

  lemma MakerKept(c: Config, w: World, e: Event, j: JobId)
    requires HasMaker(w, j)
    ensures HasMaker(Step(c, w, e), j)
  {
    var i :| 0 <= i < |w.calls| && Minted(w.calls[i].phase) == Some(j) && MakerDone(w.calls[i].phase);
    var v := Step(c, w, e);
    assert Minted(v.calls[i].phase) == Some(j) && MakerDone(v.calls[i].phase);
  }

  lemma {:induction false} RunMakers(c: Config, es: seq<Event>)
    ensures forall j :: j in Run(c, es).store.rows ==> HasMaker(Run(c, es), j)
  {
    if es != [] {
      var w, e := Run(c, es[..|es| - 1]), es[|es| - 1];
      var v := Step(c, w, e);
      RunMakers(c, es[..|es| - 1]);
      RunInv(c, es[..|es| - 1]);
      forall j | j in v.store.rows ensures HasMaker(v, j) {
        if j in w.store.rows {
          MakerKept(c, w, e, j);
        } else {
          NewRowMaker(c, w, e, j);
        }
      }
    }
  }

  lemma NewRowMaker(c: Config, w: World, e: Event, j: JobId)
    requires Inv(c, w) && j !in w.store.rows && j in Step(c, w, e).store.rows
    ensures HasMaker(Step(c, w, e), j)
  {
    var v := Step(c, w, e);
    if e.Work? {
      EffectFrame(c, w.store, w.deliveries[e.delivery].msg, w.deliveries[e.delivery].phase, e.x);
    } else if e.Api? {
      assert CallOk(c, w.store, w.calls[e.call]);
      CallRows(c, w.store, w.calls[e.call], e.raises, j);
      assert Minted(v.calls[e.call].phase) == Some(j) && MakerDone(v.calls[e.call].phase);
    }
  }

  /** The key's messages are all of job `j`. */
  ghost predicate KeyIsOwn(s: Store, k: Key, j: JobId)
  {
    forall q :: 0 <= q < |s.queue| && s.queue[q].msg.key == k ==> s.queue[q].msg.job == j
  }

  lemma OwnKeySends(c: Config, w: World, j: JobId)
    requires StoreOk(c, w.store) && j in w.store.rows && KeyIsOwn(w.store, w.store.rows[j].key, j)
    requires OneSend(w, j)
    ensures Sum(SendsOf(w.store.rows[j].key), w.store.queue) <= 1
  {
    var k := w.store.rows[j].key;
    forall q | 0 <= q < |w.store.queue| ensures SendsOf(k)(w.store.queue[q]) <= ApiSendOf(j)(w.store.queue[q]) {
      assert MessageOk(c, w.store, w.store.queue[q].msg);
    }
    SumMonotone(SendsOf(k), ApiSendOf(j), w.store.queue);
  }

  /** Two jobs published with one key make two sends. */
  lemma TwoSends(s: Store, i: JobId, j: JobId, k: Key)
    requires Enqueued(s, i) && Enqueued(s, j) && s.sent[i] != s.sent[j]
    requires s.sent[i].key == k && s.sent[j].key == k
    ensures Sum(SendsOf(k), s.queue) >= 2
  {
    var a :| 0 <= a < |s.queue| && s.queue[a].origin.FromApi? && s.queue[a].msg == s.sent[i];
    var b :| 0 <= b < |s.queue| && s.queue[b].origin.FromApi? && s.queue[b].msg == s.sent[j];
    if a < b {
      SumAtLeastTwo(SendsOf(k), s.queue, a, b);
    } else {
      SumAtLeastTwo(SendsOf(k), s.queue, b, a);
    }
  }

  lemma ForeignKeySends(c: Config, w: World, j: JobId, q: nat)
    requires QueueOk(c, w.store) && SentOk(w.store) && AllEnqueued(w.store) && j in w.store.rows
    requires q < |w.store.queue| && w.store.queue[q].msg.key == w.store.rows[j].key && w.store.queue[q].msg.job != j
    ensures Sum(SendsOf(w.store.rows[j].key), w.store.queue) >= 2
  {
    var s, i := w.store, w.store.queue[q].msg.job;
    assert MessageOk(c, s, s.queue[q].msg) && RowSent(s, j, s.rows[j]);
    assert s.sent[i].job == i && s.sent[j].job == j;
    assert Enqueued(s, i) && Enqueued(s, j);
    TwoSends(s, i, j, s.rows[j].key);
  }

  lemma CommittedIsKept(c: Config, w: World, j: JobId)
    requires StoreOk(c, w.store) && CallsOk(c, w) && HasMaker(w, j) && j in w.store.rows
    ensures Sum(KeepersOf(w.store.rows[j].key), w.calls) >= 1
  {
    var i :| 0 <= i < |w.calls| && Minted(w.calls[i].phase) == Some(j) && MakerDone(w.calls[i].phase);
    assert CallOk(c, w.store, w.calls[i]);
    SumAtLeast(KeepersOf(w.store.rows[j].key), w.calls, i);
  }

  lemma RunKeeps(c: Config, es: seq<Event>, j: JobId)
    requires j in Run(c, es).store.rows
    ensures Sum(KeepersOf(Run(c, es).store.rows[j].key), Run(c, es).calls) >= 1
  {
    RunInv(c, es);
    RunMakers(c, es);
    CommittedIsKept(c, Run(c, es), j);
  }

  /** What every reachable state offers for counting the sends with a committed row's key. */
  lemma KeyCounts(c: Config, es: seq<Event>, j: JobId)
    requires j in Run(c, es).store.rows
    ensures var w := Run(c, es); var k := w.store.rows[j].key;
            Sum(SendsOf(k), w.store.queue) == 1 + Sum(OrphansOf(k), w.calls) && Sum(OrphansOf(k), w.calls) >= 0
  {
    var w := Run(c, es);
    var k := w.store.rows[j].key;
    RunKeeps(c, es, j);
    SendsPerKey(c, es, k);
    SumNonNegative(OrphansOf(k), w.calls);
  }

  /**
   A committed job shares its key with no other job's message exactly when no call with the key was
   rolled back after its send.
   */
  lemma KeyIsOwnIff(c: Config, es: seq<Event>, j: JobId)
    requires j in Run(c, es).store.rows
    ensures var w := Run(c, es); var k := w.store.rows[j].key;
            KeyIsOwn(w.store, k, j) <==> Sum(OrphansOf(k), w.calls) == 0
  {
    var w := Run(c, es);
    var k := w.store.rows[j].key;
    KeyCounts(c, es, j);
    RunInv(c, es);
    if KeyIsOwn(w.store, k, j) {
      OneSendPerJob(c, es, j);
      OwnKeySends(c, w, j);
    } else {
      RunEnqueues(c, es);
      var q :| 0 <= q < |w.store.queue| && w.store.queue[q].msg.key == k && w.store.queue[q].msg.job != j;
      ForeignKeySends(c, w, j, q);
    }
  }
}
