/** The shared stores as mutable objects, each operation tied to the protocol's store functions. */
module Stores {
  import opened JobModel
  import opened Protocol

  datatype Inserted = Fresh | Duplicate | Blocked

  /** The jobs table with its unique index, and the inserts of open transactions. */
  class Database {
    var rows: map<JobId, Row>
    var pending: map<JobId, Row>
    var index: map<Key, JobId>

    constructor ()
      ensures rows == map[] && pending == map[] && index == map[]
    {
      rows, pending, index := map[], map[], map[];
    }

    method FindById(job: JobId) returns (row: Option<Row>)
      ensures row == if job in rows then Some(rows[job]) else None
    {
      row := None;
      if job in rows {
        row := Some(rows[job]);
      }
    }

    method FindByIdempotencyKey(key: Key) returns (id: Option<JobId>)
      ensures id == if key in index && index[key] in rows then Some(index[key]) else None
    {
      id := None;
      if key in index && index[key] in rows {
        id := Some(index[key]);
      }
    }

    /** INSERT in an open transaction: the unique index counts committed and open rows alike. */
    method Insert(id: JobId, row: Row) returns (r: Inserted)
      modifies this
      ensures rows == old(rows)
      ensures r == if row.key !in old(index) then Fresh
                   else if old(index)[row.key] in old(rows) then Duplicate else Blocked
      ensures pending == if r.Fresh? then old(pending)[id := row] else old(pending)
      ensures index == if r.Fresh? then old(index)[row.key := id] else old(index)
    {
      if row.key in index {
        r := if index[row.key] in rows then Duplicate else Blocked;
      } else {
        pending := pending[id := row];
        index := index[row.key := id];
        r := Fresh;
      }
    }

    method Commit(id: JobId, row: Row)
      modifies this
      ensures pending == old(pending) - {id} && rows == old(rows)[id := row] && index == old(index)
    {
      pending := pending - {id};
      rows := rows[id := row];
    }

    method RollBack(id: JobId, key: Key)
      modifies this
      ensures pending == old(pending) - {id} && index == old(index) - {key} && rows == old(rows)
    {
      pending := pending - {id};
      index := index - {key};
    }

    method SetStatus(job: JobId, status: Status)
      modifies this
      ensures pending == old(pending) && index == old(index)
      ensures rows == if job in old(rows) then old(rows)[job := old(rows)[job].(status := status)] else old(rows)
    {
      if job in rows {
        rows := rows[job := rows[job].(status := status)];
      }
    }

    /** UPDATE jobs SET ... WHERE id = job, the increment evaluated by the server. */
    method Update(job: JobId, status: Status, result: Value, increment: bool)
      modifies this
      ensures pending == old(pending) && index == old(index)
      ensures rows.Keys == old(rows).Keys && forall j :: j in rows && j != job ==> rows[j] == old(rows)[j]
      ensures job in rows ==> rows[job] == old(rows)[job].(
                status := status,
                result := if result == Null then old(rows)[job].result else result,
                executionCount := old(rows)[job].executionCount + if increment then 1 else 0)
    {
      if job in rows {
        var row := rows[job].(status := status);
        if result != Null {
          row := row.(result := result);
        }
        if increment {
          row := row.(executionCount := row.executionCount + 1);
        }
        rows := rows[job := row];
      }
    }
  }

  /** The default queue, the revoked ids and the DLQ. */
  class Broker {
    var queue: seq<Envelope>
    var sent: map<JobId, Message>
    var revoked: set<CeleryId>
    var dlq: seq<DlqMessage>

    constructor ()
      ensures queue == [] && sent == map[] && revoked == {} && dlq == []
    {
      queue, sent, revoked, dlq := [], map[], {}, [];
    }

    method Publish(msg: Message)
      modifies this
      ensures queue == old(queue) + [Envelope(msg, FromApi, false)] && sent == old(sent)[msg.job := msg]
      ensures revoked == old(revoked) && dlq == old(dlq)
    {
      queue := queue + [Envelope(msg, FromApi, false)];
      sent := sent[msg.job := msg];
    }

    method Enqueue(msg: Message, origin: Origin)
      modifies this
      ensures queue == old(queue) + [Envelope(msg, origin, false)]
      ensures sent == old(sent) && revoked == old(revoked) && dlq == old(dlq)
    {
      queue := queue + [Envelope(msg, origin, false)];
    }

    method Take(q: nat) returns (msg: Message)
      requires q < |queue|
      modifies this
      ensures msg == old(queue)[q].msg && queue == old(queue)[q := old(queue)[q].(taken := true)]
      ensures sent == old(sent) && revoked == old(revoked) && dlq == old(dlq)
    {
      msg := queue[q].msg;
      queue := queue[q := queue[q].(taken := true)];
    }

    method Revoke(id: CeleryId)
      modifies this
      ensures revoked == old(revoked) + {id} && queue == old(queue) && sent == old(sent) && dlq == old(dlq)
    {
      revoked := revoked + {id};
    }

    method SendToDlq(d: DlqMessage)
      modifies this
      ensures dlq == old(dlq) + [d] && queue == old(queue) && sent == old(sent) && revoked == old(revoked)
    {
      dlq := dlq + [d];
    }
  }

  /** The idempotency cache. */
  class Cache {
    var entries: map<Key, Entry>

    constructor ()
      ensures entries == map[]
    {
      entries := map[];
    }

    method Get(key: Key, now: real) returns (value: Option<Value>)
      ensures value == if key in entries && now < entries[key].expires then Some(entries[key].value) else None
    {
      value := None;
      if key in entries && now < entries[key].expires {
        value := Some(entries[key].value);
      }
    }

    method SetEx(key: Key, value: Value, expires: real)
      modifies this
      ensures entries == old(entries)[key := Entry(value, expires)]
    {
      entries := entries[key := Entry(value, expires)];
    }
  }

  class Metrics {
    var jobsTotal: multiset<Sample>
    var dlqSize: nat

    constructor ()
      ensures jobsTotal == multiset{} && dlqSize == 0
    {
      jobsTotal, dlqSize := multiset{}, 0;
    }

    method Inc(task: TaskName, tag: Label)
      modifies this
      ensures jobsTotal == old(jobsTotal) + multiset{Sample(task, tag)} && dlqSize == old(dlqSize)
    {
      jobsTotal := jobsTotal + multiset{Sample(task, tag)};
    }

    method IncDlqSize()
      modifies this
      ensures dlqSize == old(dlqSize) + 1 && jobsTotal == old(jobsTotal)
    {
      dlqSize := dlqSize + 1;
    }
  }

  /** The clock and the uuid supply. */
  class Host {
    var uuids: nat
    var now: real

    constructor ()
      ensures uuids == 0 && now == 0.0
    {
      uuids, now := 0, 0.0;
    }

    method Uuid4() returns (u: nat)
      modifies this
      ensures u == old(uuids) && uuids == old(uuids) + 1 && now == old(now)
    {
      u := uuids;
      uuids := uuids + 1;
    }

    /** Several uuids at once. */
    method Draw(n: nat)
      modifies this
      ensures uuids == old(uuids) + n && now == old(now)
    {
      uuids := uuids + n;
    }

    method Wait(seconds: real)
      modifies this
      ensures now == old(now) + seconds && uuids == old(uuids)
    {
      now := now + seconds;
    }
  }

  /** One installation: the stores that the API and the workers share. */
  class Deployment {
    const config: Config
    const db: Database
    const broker: Broker
    const cache: Cache
    const metrics: Metrics
    const host: Host

    ghost const Repr: set<object>

    constructor (config: Config)
      ensures this.config == config && State() == EMPTY_STORE && Valid() && fresh(Repr)
    {
      this.config := config;
      db := new Database();
      broker := new Broker();
      cache := new Cache();
      metrics := new Metrics();
      host := new Host();
      Repr := {db, broker, cache, metrics, host};
    }

    ghost predicate Valid()
    {
      Repr == {db, broker, cache, metrics, host}
    }

    /** The stores as the protocol sees them. */
    ghost function State(): Store
      reads db, broker, cache, metrics, host
    {
      Store(db.rows, db.pending, db.index, broker.queue, broker.sent, broker.revoked, broker.dlq,
            cache.entries, metrics.jobsTotal, metrics.dlqSize, host.uuids, host.now)
    }
  }
}
