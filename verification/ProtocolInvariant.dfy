/**
  What every step of the job protocol keeps.

  `Shared` speaks of the stores alone, `WorkerOK` of one worker's program counter. Every fact
  a worker relies on survives when the stores only `Grow`, so a step of one worker cannot
  break another: the proof of each step is a lemma about the stores it touches.
 */
module ProtocolInvariant {
  import opened Basics
  import opened Protocol

  ghost predicate Known(x: Stores, j: JobId) { j in x.h.accepted }

  /** The purge of `j` is complete: row, receipt, and the key destroyed at the receipt's time. */
  ghost predicate Done(p: Postgres, j: JobId) {
    && j in p.rows && j in p.receipts
    && j in p.keys && p.keys[j] == Destroyed(p.receipts[j])
  }

  /** The checkpoint text of an uninterrupted first step. */
  ghost predicate IsFirst(c: Config, job: Job, partial: string) {
    && TypeName(job.jobType) in c.runners
    && c.runners[TypeName(job.jobType)].first(job.plain) == Some(partial)
  }

  /** `out` is what an uninterrupted run computes from an accepted input, with no policy or with
      a stored one. */
  ghost predicate ValidOutput(c: Config, docs: seq<string>, job: Job, out: string) {
    && TypeName(job.jobType) in c.runners
    && var runner := c.runners[TypeName(job.jobType)];
       && runner.first(job.plain).Some?
       && (|| out == runner.rest(runner.first(job.plain).value)
           || (runner.usesPolicy && exists doc :: doc in docs && out == runner.underPolicy(job.plain, doc)))
  }

  ghost predicate RowOK(c: Config, docs: seq<string>, job: Job, row: Row) {
    row.tenant == job.tenant && (row.state.Completed? ==> ValidOutput(c, docs, job, row.body))
  }

  ghost predicate CheckpointOK(c: Config, job: Job, v: Value) {
    v.Sealed? && v.key == job.key && IsFirst(c, job, v.plain)
  }

  ghost function CountPurges(recs: seq<Record>, j: JobId): nat {
    if recs == [] then 0
    else
      var last := recs[|recs| - 1];
      CountPurges(recs[..|recs| - 1], j) + (if last.PurgeReceipt? && last.job == j then 1 else 0)
  }

  lemma CountPurgesAppend(recs: seq<Record>, r: Record, j: JobId)
    ensures CountPurges(recs + [r], j) == CountPurges(recs, j) + (if r.PurgeReceipt? && r.job == j then 1 else 0)
  {
    assert (recs + [r])[..|recs|] == recs;
  }

  lemma {:induction false} NoRecord(recs: seq<Record>, j: JobId)
    requires forall i :: 0 <= i < |recs| && recs[i].PurgeReceipt? ==> recs[i].job != j
    ensures CountPurges(recs, j) == 0
  {
    if recs != [] { NoRecord(recs[..|recs| - 1], j); }
  }

  /** Everything the stores hold about one job. `queued` says its newest entry is in the stream. */
  datatype View = View(job: Job, key: Option<KeyRow>, row: Option<Row>, receipt: Option<Time>,
                       checkpoint: Option<Value>, purges: nat, queued: bool)

  ghost function ViewOf(x: Stores, j: JobId): View
    requires Known(x, j)
  {
    View(x.h.accepted[j], Get(x.p.keys, j), Get(x.p.rows, j), Get(x.p.receipts, j), Get(x.r.mem, j),
         CountPurges(LedgerOf(x.p, x.h.accepted[j].tenant), j),
         j in x.h.home && x.h.home[j] in x.r.stream && x.r.stream[x.h.home[j]].id == j)
  }

  ghost predicate JobOK(c: Config, docs: seq<string>, v: View) {
    && v.key.Some?
    && (v.key.value == Live(v.job.key) || (v.receipt.Some? && v.key.value == Destroyed(v.receipt.value)))
    && (v.receipt.Some? ==> v.row.Some?)
    && (v.row.Some? ==> RowOK(c, docs, v.job, v.row.value))
    && (v.checkpoint.Some? ==> CheckpointOK(c, v.job, v.checkpoint.value))
    && v.purges == (if v.receipt.Some? then 1 else 0)
    && (v.queued || v.key.value.Destroyed?)
  }

  ghost predicate JobsOK(c: Config, x: Stores) {
    forall j :: Known(x, j) ==> JobOK(c, PoliciesOf(x.p, x.h.accepted[j].tenant), ViewOf(x, j))
  }

  /** What `Add` asks of a job and the dispatcher of an entry: an id and a tenant. */
  ghost predicate Named(f: Fields) { f.id != "" && f.tenant != "" }

  ghost predicate StreamOK(accepted: map<JobId, Job>, stream: map<EntryId, Fields>, nextEntry: EntryId,
                           pending: set<EntryId>) {
    && (forall e :: e in stream ==>
          && e < nextEntry && Named(stream[e]) && stream[e].id in accepted
          && stream[e] == FieldsOf(stream[e].id, accepted[stream[e].id]))
    && pending <= stream.Keys
  }

  ghost predicate RecordOK(accepted: map<JobId, Job>, receipts: map<JobId, Time>, t: Tenant, r: Record) {
    r.PurgeReceipt? ==>
      r.job in receipts && r.at == receipts[r.job] && r.job in accepted && accepted[r.job].tenant == t
  }

  ghost predicate LedgerOK(accepted: map<JobId, Job>, receipts: map<JobId, Time>, ledger: map<Tenant, seq<Record>>) {
    forall t, i :: t in ledger && 0 <= i < |ledger[t]| ==> RecordOK(accepted, receipts, t, ledger[t][i])
  }

  ghost predicate FailedRow(rows: map<JobId, Row>, j: JobId) { j in rows && rows[j].state.Failed? }

  /** A dead letter keeps every field but the input, and its job was recorded as failed. */
  ghost predicate DlqOK(accepted: map<JobId, Job>, rows: map<JobId, Row>, dlq: seq<DeadLetter>) {
    forall i :: 0 <= i < |dlq| ==>
      && dlq[i].id in accepted && dlq[i] == DeadOf(FieldsOf(dlq[i].id, accepted[dlq[i].id]))
      && FailedRow(rows, dlq[i].id)
  }

  ghost predicate OnlyAccepted(x: Stores) {
    && x.p.receipts.Keys <= x.h.accepted.Keys
    && x.p.rows.Keys <= x.h.accepted.Keys
    && x.r.mem.Keys <= x.h.accepted.Keys
    && x.r.retry.Keys <= x.h.accepted.Keys
    && x.h.home.Keys == x.h.requeues.Keys == x.h.accepted.Keys
    && (forall j :: j in x.h.home ==> x.h.home[j] < x.r.nextEntry)
  }

  ghost predicate Shared(c: Config, x: Stores) {
    && JobsOK(c, x)
    && StreamOK(x.h.accepted, x.r.stream, x.r.nextEntry, x.r.pending)
    && LedgerOK(x.h.accepted, x.p.receipts, x.p.ledger)
    && DlqOK(x.h.accepted, x.p.rows, x.r.dlq)
    && OnlyAccepted(x)
  }

  ghost predicate MapGrows<K, V>(m: map<K, V>, n: map<K, V>) {
    forall k :: k in m ==> k in n && n[k] == m[k]
  }

  ghost predicate KeysGrow(m: map<JobId, KeyRow>, n: map<JobId, KeyRow>) {
    forall j :: j in m ==> j in n && (n[j] == m[j] || (m[j].Live? && n[j].Destroyed?))
  }

  ghost predicate ListsGrow<T>(m: map<Tenant, seq<T>>, n: map<Tenant, seq<T>>) {
    forall t :: t in m ==> t in n && m[t] <= n[t]
  }

  ghost predicate StreamGrows(m: map<EntryId, Fields>, mNext: EntryId, n: map<EntryId, Fields>, nNext: EntryId) {
    mNext <= nNext && forall e :: e in n && e < mNext ==> e in m && m[e] == n[e]
  }

  /** Nothing that was written is taken back or changed. */
  ghost predicate Grows(x: Stores, y: Stores) {
    && MapGrows(x.h.accepted, y.h.accepted)
    && MapGrows(x.p.rows, y.p.rows)
    && MapGrows(x.p.receipts, y.p.receipts)
    && KeysGrow(x.p.keys, y.p.keys)
    && ListsGrow(x.p.policies, y.p.policies)
    && ListsGrow(x.p.ledger, y.p.ledger)
    && StreamGrows(x.r.stream, x.r.nextEntry, y.r.stream, y.r.nextEntry)
  }

  lemma GrowsTransitive(x: Stores, y: Stores, z: Stores)
    requires Grows(x, y) && Grows(y, z)
    ensures Grows(x, z)
  {}

  ghost predicate MsgOK(x: Stores, m: Msg) {
    && Known(x, m.f.id) && m.f == FieldsOf(m.f.id, x.h.accepted[m.f.id]) && Named(m.f)
    && m.entry < x.r.nextEntry
    && (m.entry in x.r.stream ==> x.r.stream[m.entry] == m.f)
  }

  ghost predicate ViaOK(c: Config, via: Via) { via.FailHook? ==> c.hooks && via.seen >= 2 }

  ghost predicate ViaFits(c: Config, p: Postgres, j: JobId, via: Via) {
    ViaOK(c, via) && j in p.rows && (via.FailHook? || via.Bury? ==> FailedRow(p.rows, j))
  }

  ghost predicate PcOK(c: Config, x: Stores, pc: PC) {
    !pc.Idle? ==>
    && MsgOK(x, pc.m)
    && var j := pc.m.f.id; var job := x.h.accepted[j];
      match pc
      case Idle => true
      case LoadRow(_, fail) => fail ==> c.hooks
      case LoadMem(_, fail) => fail ==> c.hooks
      case MemInsert(_, fail, sealed) => (fail ==> c.hooks) && CheckpointOK(c, job, sealed)
      case MemSelect(_, fail, sealed) => (fail ==> c.hooks) && CheckpointOK(c, job, sealed)
      case LoadKey(_, fail, saved) => (fail ==> c.hooks) && (saved.Some? ==> IsFirst(c, job, saved.value))
      case Running(_, fail, saved, plain) =>
        (fail ==> c.hooks) && plain == job.plain && (saved.Some? ==> IsFirst(c, job, saved.value))
      case SaveInsert(_, fail, partial) => (fail ==> c.hooks) && IsFirst(c, job, partial)
      case SaveSelect(_, fail, partial) => (fail ==> c.hooks) && IsFirst(c, job, partial)
      case SaveSet(_, fail, partial, sealed) =>
        (fail ==> c.hooks) && IsFirst(c, job, partial) && sealed == Sealed(job.key, partial)
      case Peek(_, out) => c.hooks
      case Commit(_, row, via) =>
        && RowOK(c, PoliciesOf(x.p, job.tenant), job, row) && ViaOK(c, via) && !via.Journaled?
        && (via.FailHook? || via.Bury? <==> row.state.Failed?)
      case PurgeGet(_, via) => ViaFits(c, x.p, j, via)
      case PurgeInsert(_, at, via) => ViaFits(c, x.p, j, via)
      case PurgeGetAgain(_, via) => j in x.p.receipts && ViaFits(c, x.p, j, via)
      case PurgeDestroy(_, at, via) => j in x.p.receipts && x.p.receipts[j] == at && ViaFits(c, x.p, j, via)
      case PurgeDrop(_, via) => Done(x.p, j) && ViaFits(c, x.p, j, via)
      case Finish(_) => Done(x.p, j)
      case SettleForced(_) => Done(x.p, j) && FailedRow(x.p.rows, j)
      case Settle(_, seen) => c.hooks && (seen >= 2 ==> Done(x.p, j) && FailedRow(x.p.rows, j))
  }

  ghost predicate WorkerOK(c: Config, x: Stores, k: Worker) {
    PcOK(c, x, k.pc) && forall i :: 0 <= i < |k.batch| ==> MsgOK(x, k.batch[i])
  }

  ghost predicate WorkersOK(c: Config, x: Stores, ws: map<WorkerId, Worker>) {
    forall w :: w in ws ==> WorkerOK(c, x, ws[w])
  }

  /** Growth keeps every fact another worker relies on. */
  lemma MsgStable(x: Stores, y: Stores, m: Msg)
    requires Grows(x, y) && MsgOK(x, m)
    ensures MsgOK(y, m)
  {}

  lemma DocsGrow(x: Stores, y: Stores, t: Tenant)
    requires Grows(x, y)
    ensures PoliciesOf(x.p, t) <= PoliciesOf(y.p, t)
  {}

  lemma RowStable(c: Config, docs: seq<string>, docs': seq<string>, job: Job, row: Row)
    requires docs <= docs' && RowOK(c, docs, job, row)
    ensures RowOK(c, docs', job, row)
  {}

  lemma WorkerStable(c: Config, x: Stores, y: Stores, k: Worker)
    requires Grows(x, y) && WorkerOK(c, x, k)
    ensures WorkerOK(c, y, k)
  {
    forall i | 0 <= i < |k.batch| ensures MsgOK(y, k.batch[i]) { MsgStable(x, y, k.batch[i]); }
    if !k.pc.Idle? {
      MsgStable(x, y, k.pc.m);
      var job := x.h.accepted[k.pc.m.f.id];
      DocsGrow(x, y, job.tenant);
      if k.pc.Commit? { RowStable(c, PoliciesOf(x.p, job.tenant), PoliciesOf(y.p, job.tenant), job, k.pc.row); }
    }
  }
}
