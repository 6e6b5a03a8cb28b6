/**
  Each write to a store keeps `Shared` and only grows it.

  A write concerns one job: `…Frame` says what it does to that job's view and that it leaves
  the others alone, `…Jobs` that the job clauses still hold, `…Kept` puts the parts together.
 */
module ProtocolStores {
  import opened Basics
  import opened Protocol
  import opened ProtocolInvariant

  ghost predicate Kept(c: Config, x: Stores, y: Stores) { Shared(c, y) && Grows(x, y) }

  ghost function Docs(x: Stores, j: JobId): seq<string>
    requires Known(x, j)
  {
    PoliciesOf(x.p, x.h.accepted[j].tenant)
  }

  lemma JobAt(c: Config, x: Stores, j: JobId)
    requires JobsOK(c, x) && Known(x, j)
    ensures JobOK(c, Docs(x, j), ViewOf(x, j))
  {}

  /** Every job but `j` looks the same in both stores. */
  ghost predicate Elsewhere(x: Stores, y: Stores, j: JobId) {
    && (forall k :: Known(y, k) && k != j ==> Known(x, k))
    && (forall k :: Known(x, k) && k != j ==> Known(y, k) && ViewOf(y, k) == ViewOf(x, k))
  }

  lemma JobFrame(c: Config, x: Stores, y: Stores, k: JobId)
    requires Known(x, k) && Known(y, k) && Docs(x, k) <= Docs(y, k) && ViewOf(y, k) == ViewOf(x, k)
    requires JobOK(c, Docs(x, k), ViewOf(x, k))
    ensures JobOK(c, Docs(y, k), ViewOf(y, k))
  {
    var v := ViewOf(x, k);
    if v.row.Some? { RowStable(c, Docs(x, k), Docs(y, k), v.job, v.row.value); }
  }

  /** A write that concerns job `j` alone keeps the clause of every other job. */
  lemma JobsFrame(c: Config, x: Stores, y: Stores, j: JobId)
    requires JobsOK(c, x) && Grows(x, y) && Elsewhere(x, y, j)
    requires Known(y, j) ==> JobOK(c, Docs(y, j), ViewOf(y, j))
    ensures JobsOK(c, y)
  {
    forall k | Known(y, k) ensures JobOK(c, PoliciesOf(y.p, y.h.accepted[k].tenant), ViewOf(y, k)) {
      if k != j {
        JobAt(c, x, k);
        DocsGrow(x, y, x.h.accepted[k].tenant);
        JobFrame(c, x, y, k);
      }
    }
  }

  // ----- the checkpoint hash

  lemma MemFrame(x: Stores, j: JobId, mem: map<JobId, Value>)
    requires Known(x, j) && forall k :: k != j ==> Get(mem, k) == Get(x.r.mem, k)
    ensures var y := WithMem(x, mem);
            Grows(x, y) && Elsewhere(x, y, j) && ViewOf(y, j) == ViewOf(x, j).(checkpoint := Get(mem, j))
  {}

  lemma MemJobs(c: Config, x: Stores, j: JobId, mem: map<JobId, Value>)
    requires JobsOK(c, x) && Known(x, j) && forall k :: k != j ==> Get(mem, k) == Get(x.r.mem, k)
    requires j in mem ==> CheckpointOK(c, x.h.accepted[j], mem[j])
    ensures JobsOK(c, WithMem(x, mem)) && Grows(x, WithMem(x, mem))
  {
    MemFrame(x, j, mem);
    JobAt(c, x, j);
    JobsFrame(c, x, WithMem(x, mem), j);
  }

  lemma MemKept(c: Config, x: Stores, j: JobId, mem: map<JobId, Value>)
    requires Shared(c, x) && Known(x, j) && forall k :: k != j ==> Get(mem, k) == Get(x.r.mem, k)
    requires j in mem ==> CheckpointOK(c, x.h.accepted[j], mem[j])
    ensures Kept(c, x, WithMem(x, mem))
  {
    MemJobs(c, x, j, mem);
    assert mem.Keys <= x.h.accepted.Keys by {
      forall k | k in mem ensures k in x.h.accepted { assert k != j ==> Get(mem, k) == Get(x.r.mem, k); }
    }
  }

  lemma SaveMemKept(c: Config, x: Stores, j: JobId, v: Value)
    requires Shared(c, x) && Known(x, j) && CheckpointOK(c, x.h.accepted[j], v)
    ensures Kept(c, x, WithMem(x, x.r.mem[j := v]))
  {
    GetUpdate(x.r.mem, j, v);
    MemKept(c, x, j, x.r.mem[j := v]);
  }

  lemma DropMemKept(c: Config, x: Stores, j: JobId)
    requires Shared(c, x) && Known(x, j)
    ensures Kept(c, x, WithMem(x, x.r.mem - {j}))
  {
    GetMinus(x.r.mem, j);
    MemKept(c, x, j, x.r.mem - {j});
  }

  // ----- the journal

  lemma RowFrame(x: Stores, j: JobId, row: Row)
    requires Known(x, j) && j !in x.p.rows
    ensures var y := WithRow(x, j, row);
            Grows(x, y) && Elsewhere(x, y, j) && ViewOf(y, j) == ViewOf(x, j).(row := Some(row))
  {}

  lemma RecordJobs(c: Config, x: Stores, j: JobId, row: Row)
    requires JobsOK(c, x) && Known(x, j) && j !in x.p.rows && RowOK(c, Docs(x, j), x.h.accepted[j], row)
    ensures JobsOK(c, WithRow(x, j, row)) && Grows(x, WithRow(x, j, row))
  {
    RowFrame(x, j, row);
    JobAt(c, x, j);
    JobsFrame(c, x, WithRow(x, j, row), j);
  }

  lemma RecordKept(c: Config, x: Stores, j: JobId, row: Row)
    requires Shared(c, x) && Known(x, j) && j !in x.p.rows && RowOK(c, Docs(x, j), x.h.accepted[j], row)
    ensures Kept(c, x, WithRow(x, j, row))
  {
    RecordJobs(c, x, j, row);
    DlqRowsGrow(x.h.accepted, x.p.rows, x.p.rows[j := row], x.r.dlq);
  }

  lemma DlqRowsGrow(accepted: map<JobId, Job>, rows: map<JobId, Row>, rows': map<JobId, Row>, dlq: seq<DeadLetter>)
    requires DlqOK(accepted, rows, dlq) && MapGrows(rows, rows')
    ensures DlqOK(accepted, rows', dlq)
  {}

  // ----- receipts and the ledger

  lemma AppendCounts(p: Postgres, q: Postgres, t: Tenant, rec: Record, u: Tenant, j: JobId)
    requires q.ledger == Append(p, t, rec)
    ensures CountPurges(LedgerOf(q, u), j) ==
            CountPurges(LedgerOf(p, u), j) + (if u == t && rec.PurgeReceipt? && rec.job == j then 1 else 0)
  {
    if u == t { CountPurgesAppend(LedgerOf(p, t), rec, j); }
  }

  lemma AppendGrows(p: Postgres, t: Tenant, rec: Record)
    ensures ListsGrow(p.ledger, Append(p, t, rec))
  {}

  /** Appending one well-placed record keeps the ledger clause. */
  lemma LedgerStays(accepted: map<JobId, Job>, receipts: map<JobId, Time>, receipts': map<JobId, Time>, p: Postgres,
                    t: Tenant, rec: Record)
    requires LedgerOK(accepted, receipts, p.ledger) && MapGrows(receipts, receipts')
    requires RecordOK(accepted, receipts', t, rec)
    ensures LedgerOK(accepted, receipts', Append(p, t, rec))
  {
    var l := Append(p, t, rec);
    forall u, i | u in l && 0 <= i < |l[u]| ensures RecordOK(accepted, receipts', u, l[u][i]) {
      if u != t || i < |LedgerOf(p, t)| {
        assert u in p.ledger && p.ledger[u][i] == l[u][i];
        assert RecordOK(accepted, receipts, u, p.ledger[u][i]);
      }
    }
  }

  lemma ReceiptView(x: Stores, t: Tenant, j: JobId, at: Time, k: JobId)
    requires Known(x, k) && Known(x, j) && t == x.h.accepted[j].tenant
    ensures var y := WithReceipt(x, t, j, at); var v := ViewOf(x, k);
            ViewOf(y, k) == if k == j then v.(receipt := Some(at), purges := v.purges + 1) else v
  {
    AppendCounts(x.p, WithReceipt(x, t, j, at).p, t, PurgeReceipt(j, at), x.h.accepted[k].tenant, k);
  }

  lemma ReceiptFrame(x: Stores, t: Tenant, j: JobId, at: Time)
    requires Known(x, j) && j !in x.p.receipts && t == x.h.accepted[j].tenant
    ensures var y := WithReceipt(x, t, j, at);
            && Grows(x, y) && Elsewhere(x, y, j)
            && ViewOf(y, j) == ViewOf(x, j).(receipt := Some(at), purges := ViewOf(x, j).purges + 1)
  {
    AppendGrows(x.p, t, PurgeReceipt(j, at));
    forall k | Known(x, k) && k != j ensures ViewOf(WithReceipt(x, t, j, at), k) == ViewOf(x, k) {
      ReceiptView(x, t, j, at, k);
    }
    ReceiptView(x, t, j, at, j);
  }

  lemma ReceiptJobs(c: Config, x: Stores, t: Tenant, j: JobId, at: Time)
    requires JobsOK(c, x) && Known(x, j) && j in x.p.rows && j !in x.p.receipts && t == x.h.accepted[j].tenant
    ensures JobsOK(c, WithReceipt(x, t, j, at)) && Grows(x, WithReceipt(x, t, j, at))
  {
    ReceiptFrame(x, t, j, at);
    JobAt(c, x, j);
    JobsFrame(c, x, WithReceipt(x, t, j, at), j);
  }

  lemma ReceiptKept(c: Config, x: Stores, t: Tenant, j: JobId, at: Time)
    requires Shared(c, x) && Known(x, j) && j in x.p.rows && j !in x.p.receipts && t == x.h.accepted[j].tenant
    ensures Kept(c, x, WithReceipt(x, t, j, at))
  {
    ReceiptJobs(c, x, t, j, at);
    LedgerStays(x.h.accepted, x.p.receipts, x.p.receipts[j := at], x.p, t, PurgeReceipt(j, at));
  }

  // ----- the key store

  lemma KeysFrame(x: Stores, j: JobId, keys: map<JobId, KeyRow>)
    requires KeysGrow(x.p.keys, keys) && forall k :: k != j ==> Get(keys, k) == Get(x.p.keys, k)
    ensures var y := WithKeys(x, keys);
            && Grows(x, y) && Elsewhere(x, y, j)
            && (Known(x, j) ==> ViewOf(y, j) == ViewOf(x, j).(key := Get(keys, j)))
  {}

  lemma DestroyJobs(c: Config, x: Stores, j: JobId)
    requires JobsOK(c, x) && Known(x, j) && j in x.p.receipts
    ensures var y := WithKeys(x, Destroy(x.p.keys, j, x.p.receipts[j]));
            JobsOK(c, y) && Grows(x, y) && Done(y.p, j)
  {
    var y := WithKeys(x, Destroy(x.p.keys, j, x.p.receipts[j]));
    JobAt(c, x, j);
    KeysFrame(x, j, y.p.keys);
    JobsFrame(c, x, y, j);
  }

  lemma DestroyKept(c: Config, x: Stores, j: JobId)
    requires Shared(c, x) && Known(x, j) && j in x.p.receipts
    ensures var y := WithKeys(x, Destroy(x.p.keys, j, x.p.receipts[j]));
            Kept(c, x, y) && Done(y.p, j)
  {
    DestroyJobs(c, x, j);
  }

  lemma AddKeyJobs(c: Config, x: Stores, j: JobId, material: Key)
    requires JobsOK(c, x) && !Known(x, j)
    ensures var y := WithKeys(x, EnsureInsert(x.p.keys, j, material)); JobsOK(c, y) && Grows(x, y)
  {
    var y := WithKeys(x, EnsureInsert(x.p.keys, j, material));
    KeysFrame(x, j, y.p.keys);
    JobsFrame(c, x, y, j);
  }

  lemma AddKeyKept(c: Config, x: Stores, j: JobId, material: Key)
    requires Shared(c, x) && !Known(x, j)
    ensures Kept(c, x, WithKeys(x, EnsureInsert(x.p.keys, j, material)))
  {
    AddKeyJobs(c, x, j, material);
  }

  // ----- the stream

  /** `y` lost the entry `m` names and may have gained entries newer than all others. */
  ghost predicate Taken(x: Stores, y: Stores, m: Msg) {
    && y.h.accepted == x.h.accepted && y.p == x.p && y.r.mem == x.r.mem
    && (forall k :: k != m.f.id ==> Get(y.h.home, k) == Get(x.h.home, k))
    && (forall e :: e != m.entry && e in x.r.stream ==> e in y.r.stream && y.r.stream[e] == x.r.stream[e])
    && StreamGrows(x.r.stream, x.r.nextEntry, y.r.stream, y.r.nextEntry)
  }

  lemma StreamFrame(x: Stores, y: Stores, m: Msg)
    requires MsgOK(x, m) && Taken(x, y, m) && forall k :: k in x.h.home ==> x.h.home[k] < x.r.nextEntry
    ensures Grows(x, y) && Elsewhere(x, y, m.f.id)
    ensures ViewOf(y, m.f.id) == ViewOf(x, m.f.id).(queued := ViewOf(y, m.f.id).queued)
  {
    forall k | Known(x, k) && k != m.f.id ensures ViewOf(y, k) == ViewOf(x, k) {
      assert Get(y.h.home, k) == Get(x.h.home, k);
      if k in x.h.home {
        var e := x.h.home[k];
        assert e in y.r.stream ==> e in x.r.stream;
      }
    }
  }

  lemma StreamJobs(c: Config, x: Stores, y: Stores, m: Msg)
    requires JobsOK(c, x) && OnlyAccepted(x) && MsgOK(x, m) && Taken(x, y, m)
    requires Done(x.p, m.f.id) || ViewOf(y, m.f.id).queued
    ensures JobsOK(c, y) && Grows(x, y)
  {
    StreamFrame(x, y, m);
    JobAt(c, x, m.f.id);
    JobsFrame(c, x, y, m.f.id);
  }

  lemma DropStream(x: Stores, m: Msg)
    requires StreamOK(x.h.accepted, x.r.stream, x.r.nextEntry, x.r.pending)
    ensures var r := Drop(x.r, m.entry); StreamOK(x.h.accepted, r.stream, r.nextEntry, r.pending)
    ensures Taken(x, WithRedis(x, Drop(x.r, m.entry)), m)
    ensures Taken(x, WithRedis(x, Buried(x.r, m)), m)
  {}

  lemma DropKept(c: Config, x: Stores, m: Msg)
    requires Shared(c, x) && MsgOK(x, m) && Done(x.p, m.f.id)
    ensures Kept(c, x, WithRedis(x, Drop(x.r, m.entry)))
  {
    DropStream(x, m);
    StreamJobs(c, x, WithRedis(x, Drop(x.r, m.entry)), m);
  }

  lemma BuryDlq(x: Stores, m: Msg)
    requires DlqOK(x.h.accepted, x.p.rows, x.r.dlq) && MsgOK(x, m) && FailedRow(x.p.rows, m.f.id)
    ensures DlqOK(x.h.accepted, x.p.rows, Buried(x.r, m).dlq)
  {}

  lemma BuryKept(c: Config, x: Stores, m: Msg)
    requires Shared(c, x) && MsgOK(x, m) && Done(x.p, m.f.id) && FailedRow(x.p.rows, m.f.id)
    ensures Kept(c, x, WithRedis(x, Buried(x.r, m)))
  {
    DropStream(x, m);
    BuryDlq(x, m);
    StreamJobs(c, x, WithRedis(x, Buried(x.r, m)), m);
  }

  lemma RequeueStream(x: Stores, m: Msg, n: int)
    requires StreamOK(x.h.accepted, x.r.stream, x.r.nextEntry, x.r.pending) && MsgOK(x, m)
    ensures var r := Requeued(x.r, m, n); StreamOK(x.h.accepted, r.stream, r.nextEntry, r.pending)
    ensures Taken(x, WithRequeue(x, m, n), m) && ViewOf(WithRequeue(x, m, n), m.f.id).queued
  {}

  lemma RequeueKept(c: Config, x: Stores, m: Msg, n: int)
    requires Shared(c, x) && MsgOK(x, m)
    ensures Kept(c, x, WithRequeue(x, m, n))
  {
    RequeueStream(x, m, n);
    StreamJobs(c, x, WithRequeue(x, m, n), m);
    RequeueOnly(x, m, n);
  }

  lemma RequeueOnly(x: Stores, m: Msg, n: int)
    requires OnlyAccepted(x) && Known(x, m.f.id)
    ensures OnlyAccepted(WithRequeue(x, m, n))
  {}

  lemma ClaimJobs(c: Config, x: Stores, es: set<EntryId>)
    requires JobsOK(c, x)
    ensures var y := WithRedis(x, x.r.(pending := x.r.pending + es)); JobsOK(c, y) && Grows(x, y)
  {
    var y := WithRedis(x, x.r.(pending := x.r.pending + es));
    forall k | Known(y, k) ensures JobOK(c, PoliciesOf(y.p, y.h.accepted[k].tenant), ViewOf(y, k)) {
      JobAt(c, x, k);
      assert ViewOf(y, k) == ViewOf(x, k);
    }
  }

  lemma ClaimKept(c: Config, x: Stores, es: set<EntryId>)
    requires Shared(c, x) && es <= x.r.stream.Keys
    ensures Kept(c, x, WithRedis(x, x.r.(pending := x.r.pending + es)))
  {
    ClaimJobs(c, x, es);
  }

  /** A job that was not accepted for the tenant is not in the tenant's chain. */
  lemma NotInChain(x: Stores, t: Tenant, j: JobId)
    requires LedgerOK(x.h.accepted, x.p.receipts, x.p.ledger) && (Known(x, j) ==> x.h.accepted[j].tenant != t)
    ensures CountPurges(LedgerOf(x.p, t), j) == 0
  {
    var recs := LedgerOf(x.p, t);
    forall i | 0 <= i < |recs| && recs[i].PurgeReceipt? ensures recs[i].job != j {
      assert RecordOK(x.h.accepted, x.p.receipts, t, x.p.ledger[t][i]);
    }
    NoRecord(recs, j);
  }

  lemma AddFrame(x: Stores, j: JobId, job: Job)
    requires !Known(x, j)
    requires forall k :: k in x.h.home ==> x.h.home[k] < x.r.nextEntry
    ensures Grows(x, WithJob(x, j, job)) && Elsewhere(x, WithJob(x, j, job), j)
  {}

  lemma AddJobs(c: Config, x: Stores, j: JobId, job: Job)
    requires JobsOK(c, x) && OnlyAccepted(x) && LedgerOK(x.h.accepted, x.p.receipts, x.p.ledger)
    requires !Known(x, j) && j in x.p.keys && x.p.keys[j] == Live(job.key)
    ensures JobsOK(c, WithJob(x, j, job)) && Grows(x, WithJob(x, j, job))
  {
    var y := WithJob(x, j, job);
    AddFrame(x, j, job);
    NotInChain(x, job.tenant, j);
    assert ViewOf(y, j) == View(job, Some(Live(job.key)), None, None, None, 0, true);
    JobsFrame(c, x, y, j);
  }

  lemma LedgerKnowsMore(accepted: map<JobId, Job>, accepted': map<JobId, Job>, receipts: map<JobId, Time>,
                        ledger: map<Tenant, seq<Record>>)
    requires LedgerOK(accepted, receipts, ledger) && MapGrows(accepted, accepted')
    ensures LedgerOK(accepted', receipts, ledger)
  {
    forall t, i | t in ledger && 0 <= i < |ledger[t]| ensures RecordOK(accepted', receipts, t, ledger[t][i]) {
      assert RecordOK(accepted, receipts, t, ledger[t][i]);
    }
  }

  lemma AddOnly(x: Stores, j: JobId, job: Job)
    requires OnlyAccepted(x) && DlqOK(x.h.accepted, x.p.rows, x.r.dlq) && !Known(x, j)
    ensures OnlyAccepted(WithJob(x, j, job)) && DlqOK(x.h.accepted[j := job], x.p.rows, x.r.dlq)
  {}

  lemma AddStream(x: Stores, j: JobId, job: Job)
    requires StreamOK(x.h.accepted, x.r.stream, x.r.nextEntry, x.r.pending) && !Known(x, j)
    requires j != "" && job.tenant != ""
    ensures var y := WithJob(x, j, job); StreamOK(y.h.accepted, y.r.stream, y.r.nextEntry, y.r.pending)
  {}

  lemma AddEntryKept(c: Config, x: Stores, j: JobId, job: Job)
    requires Shared(c, x) && !Known(x, j) && j in x.p.keys && x.p.keys[j] == Live(job.key)
    requires j != "" && job.tenant != ""
    ensures Kept(c, x, WithJob(x, j, job))
  {
    AddJobs(c, x, j, job);
    AddOnly(x, j, job);
    AddStream(x, j, job);
    LedgerKnowsMore(x.h.accepted, x.h.accepted[j := job], x.p.receipts, x.p.ledger);
  }

  // ----- policies and other ledger records

  lemma OtherFrame(x: Stores, y: Stores, t: Tenant, kind: string)
    requires y == x.(p := x.p.(ledger := Append(x.p, t, Other(kind)), policies := y.p.policies))
    requires ListsGrow(x.p.policies, y.p.policies)
    ensures Grows(x, y) && forall k :: Known(x, k) ==> Known(y, k) && ViewOf(y, k) == ViewOf(x, k)
  {
    AppendGrows(x.p, t, Other(kind));
    forall k | Known(x, k) ensures ViewOf(y, k) == ViewOf(x, k) {
      AppendCounts(x.p, y.p, t, Other(kind), x.h.accepted[k].tenant, k);
    }
  }

  lemma OtherJobs(c: Config, x: Stores, y: Stores, t: Tenant, kind: string)
    requires JobsOK(c, x)
    requires y == x.(p := x.p.(ledger := Append(x.p, t, Other(kind)), policies := y.p.policies))
    requires ListsGrow(x.p.policies, y.p.policies)
    ensures JobsOK(c, y) && Grows(x, y)
  {
    OtherFrame(x, y, t, kind);
    forall k | Known(y, k) ensures JobOK(c, PoliciesOf(y.p, y.h.accepted[k].tenant), ViewOf(y, k)) {
      JobAt(c, x, k);
      DocsGrow(x, y, x.h.accepted[k].tenant);
      JobFrame(c, x, y, k);
    }
  }

  lemma OtherRecordKept(c: Config, x: Stores, y: Stores, t: Tenant, kind: string)
    requires Shared(c, x)
    requires y == x.(p := x.p.(ledger := Append(x.p, t, Other(kind)), policies := y.p.policies))
    requires ListsGrow(x.p.policies, y.p.policies)
    ensures Kept(c, x, y)
  {
    OtherJobs(c, x, y, t, kind);
    LedgerStays(x.h.accepted, x.p.receipts, x.p.receipts, x.p, t, Other(kind));
  }
}
