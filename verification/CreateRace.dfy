/**
 Race safety of job creation. Any number of calls may interleave at SELECT, flush, send and
 commit, with an exception and a rollback at any point.
 */
module CreateRace {
  import opened JobModel
  import opened Protocol
  import opened ApiInvariant
  import opened Sums

  /** The job id that a call reports to its client, created or found. */
  function Reported(p: CallPhase): Option<(JobId, Key)>
  {
    match p
    case Replied(Created(id, key)) => Some((id, key))
    case Replied(Existing(id, key)) => Some((id, key))
    case _ => None
  }

  /** Whatever calls are answered about one key, in one whole run, name one job. */
  lemma OneJobPerKey(c: Config, es: seq<Event>, i: nat, j: nat)
    requires var w := Run(c, es);
             && i < |w.calls| && j < |w.calls|
             && Reported(w.calls[i].phase).Some? && Reported(w.calls[j].phase).Some?
             && Reported(w.calls[i].phase).value.1 == Reported(w.calls[j].phase).value.1
    ensures var w := Run(c, es);
            Reported(w.calls[i].phase).value.0 == Reported(w.calls[j].phase).value.0
  {
    RunInv(c, es);
    var w := Run(c, es);
    assert CallOk(c, w.store, w.calls[i]) && CallOk(c, w.store, w.calls[j]);
  }

  /** At most one call per key is ever told that it created the job. */
  lemma OneCreatorPerKey(c: Config, es: seq<Event>, i: nat, j: nat, a: JobId, b: JobId, key: Key)
    requires var w := Run(c, es);
             && i < |w.calls| && j < |w.calls|
             && w.calls[i].phase == Replied(Created(a, key)) && w.calls[j].phase == Replied(Created(b, key))
    ensures i == j && a == b
  {
    RunInv(c, es);
    OneJobPerKey(c, es, i, j);
    MintedOnce(Run(c, es), i, j);
  }

  lemma MintedOnce(w: World, i: nat, j: nat)
    requires DistinctOk(w) && i < |w.calls| && j < |w.calls|
    requires Minted(w.calls[i].phase).Some? && Minted(w.calls[i].phase) == Minted(w.calls[j].phase)
    ensures i == j
  {
  }

  /** A reply, once given, stays: the calls of a longer run include those of a shorter one. */
  lemma {:induction false} RepliesStay(c: Config, es: seq<Event>, fs: seq<Event>, i: nat)
    requires i < |Run(c, es).calls| && Run(c, es).calls[i].phase.Replied?
    ensures i < |Run(c, es + fs).calls| && Run(c, es + fs).calls[i] == Run(c, es).calls[i]
  {
    RunMore(c, es, fs);
    if fs != [] {
      RepliesStay(c, es, fs[..|fs| - 1], i);
    }
  }

  /**
   Once a row is committed, every create with its key that reads later, whatever happens in between,
   is answered with its id and was_created = False: also when the call that committed it never
   answered its client.
   */
  lemma LaterCreateFinds(c: Config, es: seq<Event>, fs: seq<Event>, n: nat, id: JobId)
    requires id in Run(c, es).store.rows
    requires n < |Run(c, es + fs).calls| && Run(c, es + fs).calls[n].phase.Opened?
    requires var r := Run(c, es + fs).calls[n].request;
             r.Create? && r.key == Run(c, es).store.rows[id].key && r.task in c.allowed
    ensures Run(c, es + fs + [Api(n, false)]).calls[n].phase == Replied(Existing(id, Run(c, es).store.rows[id].key))
  {
    RowForever(c, es, fs, id);
    RunInv(c, es + fs);
    OneMoreEvent(c, es + fs, Api(n, false));
  }

  /** A row under this key is committed. */
  ghost predicate KeyCommitted(s: Store, key: Key)
  {
    exists j :: j in s.rows && s.rows[j].key == key
  }

  /** A create's read ends the call exactly when a row under its key is committed. */
  lemma ReadAnswersIff(c: Config, es: seq<Event>, n: nat)
    requires n < |Run(c, es).calls| && Run(c, es).calls[n].phase.Opened?
    requires Run(c, es).calls[n].request.Create? && Run(c, es).calls[n].request.task in c.allowed
    ensures Run(c, es + [Api(n, false)]).calls[n].phase.Replied?
       <==> KeyCommitted(Run(c, es).store, Run(c, es).calls[n].request.key)
  {
    RunInv(c, es);
    OneMoreEvent(c, es, Api(n, false));
    IndexTellsCommitted(Run(c, es).store, Run(c, es).calls[n].request.key);
  }

  /**
   After a read that found nothing, the flush fails exactly when a row under the key has been
   committed since: this is when a duplicate create gets an error and not the original job.
   */
  lemma FlushFailsIff(c: Config, es: seq<Event>, n: nat, task: TaskName, payload: Payload, key: Key)
    requires n < |Run(c, es).calls| && Run(c, es).calls[n] == Call(Create(task, payload, key), Absent)
    ensures Run(c, es + [Api(n, false)]).calls[n].phase.Aborted? <==> KeyCommitted(Run(c, es).store, key)
  {
    RunInv(c, es);
    OneMoreEvent(c, es, Api(n, false));
    IndexTellsCommitted(Run(c, es).store, key);
  }

  lemma IndexTellsCommitted(s: Store, key: Key)
    requires IndexOk(s)
    ensures KeyCommitted(s, key) <==> FindByKey(s, key).Some?
  {
    if FindByKey(s, key).Some? {
      assert s.rows[s.index[key]].key == key;
    }
  }

  // ---------------------------------------------------------------------------
  // How often a key is sent
  // ---------------------------------------------------------------------------

  /** The key of the message a call has sent. */
  function SentKey(p: CallPhase): Option<Key>
  {
    match p
    case Sent(_, row) => Some(row.key)
    case Committed(_, row, _) => Some(row.key)
    case Errored(_, row, _) => Some(row.key)
    case Replied(Created(_, key)) => Some(key)
    case Aborted(key) => key
    case _ => None
  }

  function SendsOf(k: Key): Envelope -> int
  {
    (e: Envelope) => if e.origin.FromApi? && e.msg.key == k then 1 else 0
  }

  function SendersOf(k: Key): Call -> int
  {
    (x: Call) => if SentKey(x.phase) == Some(k) then 1 else 0
  }

  /** Calls whose transaction was rolled back after its message was out. */
  function OrphansOf(k: Key): Call -> int
  {
    (x: Call) => if x.phase == Aborted(Some(k)) then 1 else 0
  }

  function KeepersOf(k: Key): Call -> int
  {
    (x: Call) => if SentKey(x.phase) == Some(k) && !x.phase.Aborted? then 1 else 0
  }

  ghost predicate SendsMatch(w: World, k: Key)
  {
    Sum(SendsOf(k), w.store.queue) == Sum(SendersOf(k), w.calls)
  }

  /** A call step publishes exactly when its call starts to count as a sender. */
  lemma CallPublishes(c: Config, s: Store, call: Call, raises: bool)
    ensures var (t, p) := CallStep(c, s, call, raises);
            if call.phase.Flushed? && !raises then
              && SentKey(p) == Some(call.phase.row.key) && SentKey(call.phase) == None
              && |t.queue| == |s.queue| + 1 && t.queue == s.queue + [t.queue[|s.queue|]]
              && t.queue[|s.queue|].origin.FromApi? && t.queue[|s.queue|].msg.key == call.phase.row.key
              && t.queue[|s.queue|].msg.job == call.phase.id && !t.queue[|s.queue|].taken
            else
              t.queue == s.queue && SentKey(p) == SentKey(call.phase)
  {
  }

  /** What the API publishes is a first attempt, due at once, behind what was there before. */
  lemma CallQueue(c: Config, s: Store, call: Call, raises: bool)
    ensures var t := CallStep(c, s, call, raises).0;
            && t.now == s.now && |s.queue| <= |t.queue| <= |s.queue| + 1
            && (forall p :: 0 <= p < |s.queue| ==> t.queue[p] == s.queue[p])
            && (|s.queue| < |t.queue| ==> t.queue[|s.queue|].msg.retries == 0 && t.queue[|s.queue|].msg.eta == s.now)
  {
    CallPublishes(c, s, call, raises);
  }

  lemma SendsFromCall(w: World, v: World, i: nat, p: CallPhase, k: Key)
    requires i < |w.calls| && SendsMatch(w, k) && v.calls == w.calls[i := w.calls[i].(phase := p)]
    requires var s, t := w.store, v.store;
             || (t.queue == s.queue && SentKey(p) == SentKey(w.calls[i].phase))
             || (|t.queue| == |s.queue| + 1 && t.queue == s.queue + [t.queue[|s.queue|]]
                 && t.queue[|s.queue|].origin.FromApi? && SentKey(w.calls[i].phase) == None
                 && SentKey(p) == Some(t.queue[|s.queue|].msg.key))
    ensures SendsMatch(v, k)
  {
    SumUpdate(SendersOf(k), w.calls, i, w.calls[i].(phase := p));
    if |v.store.queue| == |w.store.queue| + 1 {
      SumAppend(SendsOf(k), w.store.queue, v.store.queue[|w.store.queue|]);
    }
  }

  lemma SendsApi(c: Config, w: World, i: nat, raises: bool, k: Key)
    requires i < |w.calls| && SendsMatch(w, k)
    ensures SendsMatch(Step(c, w, Api(i, raises)), k)
  {
    CallPublishes(c, w.store, w.calls[i], raises);
    SendsFromCall(w, Step(c, w, Api(i, raises)), i, CallStep(c, w.store, w.calls[i], raises).1, k);
  }

  lemma SendsWork(c: Config, w: World, i: nat, x: Choice, k: Key)
    requires Enabled(w, Work(i, x)) && SendsMatch(w, k)
    ensures SendsMatch(Step(c, w, Work(i, x)), k)
  {
    var s, m := w.store, w.deliveries[i].msg;
    EffectPublishes(c, s, m, w.deliveries[i].phase, x);
    SumAppend(SendsOf(k), s.queue, Envelope(NextRetry(m, s.now), FromRetry, false));
  }

  lemma SendsBroker(c: Config, w: World, e: Event, k: Key)
    requires Enabled(w, e) && (e.Deliver? || e.Redeliver?) && SendsMatch(w, k)
    ensures SendsMatch(Step(c, w, e), k)
  {
    if e.Deliver? {
      SumUpdate(SendsOf(k), w.store.queue, e.envelope, w.store.queue[e.envelope].(taken := true));
    } else {
      SumAppend(SendsOf(k), w.store.queue, Envelope(w.deliveries[e.delivery].msg, FromRedelivery, false));
    }
  }

  lemma SendsOpen(c: Config, w: World, r: Request, k: Key)
    requires SendsMatch(w, k)
    ensures SendsMatch(Step(c, w, Open(r)), k)
  {
    SumAppend(SendersOf(k), w.calls, Call(r, Opened));
  }

  lemma SendsStep(c: Config, w: World, e: Event, k: Key)
    requires SendsMatch(w, k)
    ensures SendsMatch(Step(c, w, e), k)
  {
    if Enabled(w, e) {
      match e
      case Api(i, raises) => SendsApi(c, w, i, raises, k);
      case Open(r) => SendsOpen(c, w, r, k);
      case Deliver(_) => SendsBroker(c, w, e, k);
      case Redeliver(_) => SendsBroker(c, w, e, k);
      case Work(i, x) => SendsWork(c, w, i, x, k);
      case _ =>
    }
  }

  /** Sends with a key are matched one to one by calls that sent with it: a call that lost the race is none of them. */
  lemma {:induction false} SendsAreSenders(c: Config, es: seq<Event>, k: Key)
    ensures SendsMatch(Run(c, es), k)
  {
    if es != [] {
      SendsAreSenders(c, es[..|es| - 1], k);
      SendsStep(c, Run(c, es[..|es| - 1]), es[|es| - 1], k);
    }
  }

  lemma KeeperIndexed(c: Config, s: Store, call: Call, k: Key)
    requires IndexOk(s) && CallOk(c, s, call) && KeepersOf(k)(call) == 1
    ensures k in s.index && Minted(call.phase) == Some(s.index[k])
  {
  }

  /** Two calls cannot both hold a key without a rollback. */
  lemma OneKeeper(c: Config, w: World, k: Key)
    requires IndexOk(w.store) && CallsOk(c, w) && DistinctOk(w)
    ensures Sum(KeepersOf(k), w.calls) <= 1
  {
    var f := KeepersOf(k);
    forall i, j | 0 <= i < j < |w.calls| ensures f(w.calls[i]) == 0 || f(w.calls[j]) == 0 {
      KeeperPair(c, w, k, i, j);
    }
    SumAtMostOne(f, w.calls);
  }

  lemma KeeperPair(c: Config, w: World, k: Key, i: nat, j: nat)
    requires IndexOk(w.store) && CallsOk(c, w) && DistinctOk(w) && i < j < |w.calls|
    ensures KeepersOf(k)(w.calls[i]) == 0 || KeepersOf(k)(w.calls[j]) == 0
  {
    if KeepersOf(k)(w.calls[i]) == 1 {
      KeeperIndexed(c, w.store, w.calls[i], k);
      if KeepersOf(k)(w.calls[j]) == 1 {
        KeeperIndexed(c, w.store, w.calls[j], k);
      }
    }
  }

  /** Sends per key: one for the call that keeps it, if any, plus one per rollback after a send. */
  lemma SendsPerKey(c: Config, es: seq<Event>, k: Key)
    ensures var w := Run(c, es);
            && Sum(SendsOf(k), w.store.queue) == Sum(KeepersOf(k), w.calls) + Sum(OrphansOf(k), w.calls)
            && 0 <= Sum(KeepersOf(k), w.calls) <= 1
  {
    var w := Run(c, es);
    RunInv(c, es);
    SendsAreSenders(c, es, k);
    SumAdd(KeepersOf(k), OrphansOf(k), SendersOf(k), w.calls);
    OneKeeper(c, w, k);
    SumNonNegative(KeepersOf(k), w.calls);
  }
}
