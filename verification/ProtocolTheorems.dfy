/** What holds in every reachable state and along every run of the job protocol. */
module ProtocolTheorems {
  import opened Basics
  import opened Protocol
  import opened ProtocolInvariant
  import opened ProtocolStores
  import opened ProtocolSteps
  import opened ProtocolExclusive

  /** The two regimes: interleaved claims without hooks, or exclusive claims with or without. */
  ghost predicate Supported(c: Config) { c.hooks ==> c.exclusive }

  ghost predicate Inv(c: Config, s: State) {
    && Shared(c, s.x)
    && WorkersOK(c, s.x, s.workers)
    && (c.exclusive ==> Exclusive(s))
  }

  lemma InitInv(c: Config, s: State)
    requires Init(s)
    ensures Inv(c, s)
  {}

  /** One worker changes; the others keep what they know because the stores only grow. */
  lemma WorkersKeep(c: Config, s: State, y: Stores, w: WorkerId, k: Worker)
    requires Grows(s.x, y) && WorkerOK(c, y, k)
    requires WorkersOK(c, s.x, s.workers)
    ensures WorkersOK(c, y, s.workers[w := k])
  {
    var ws := s.workers[w := k];
    forall v | v in ws ensures WorkerOK(c, y, ws[v]) {
      if v != w { WorkerStable(c, s.x, y, s.workers[v]); }
    }
  }

  lemma StoresMove(c: Config, s: State, y: Stores)
    requires Grows(s.x, y)
    requires WorkersOK(c, s.x, s.workers)
    ensures WorkersOK(c, y, s.workers)
  {
    forall v | v in s.workers ensures WorkerOK(c, y, s.workers[v]) { WorkerStable(c, s.x, y, s.workers[v]); }
  }

  lemma GrowsReflexive(x: Stores)
    ensures Grows(x, x)
  {}

  ghost predicate Steps(c: Config, s: State, s': State) { Inv(c, s') && Grows(s.x, s'.x) }

  lemma SettleNeedsHooks(c: Config, x: Stores, ws: map<WorkerId, Worker>, w: WorkerId)
    requires WorkersOK(c, x, ws) && w in ws && ws[w].pc.Settle?
    ensures c.hooks
  {
    assert WorkerOK(c, x, ws[w]);
  }

  lemma AgreesHere(c: Config, s: State, w: WorkerId)
    requires Supported(c) && Inv(c, s) && w in s.workers
    ensures SettleAgrees(s.x.r, s.workers[w].pc)
  {
    if s.workers[w].pc.Settle? {
      SettleNeedsHooks(c, s.x, s.workers, w);
      AgreesWhenExclusive(c, s, w);
    }
  }

  lemma Moved(c: Config, s: State, w: WorkerId, y: Stores, pc: PC)
    requires WorkersOK(c, s.x, s.workers) && w in s.workers && Grows(s.x, y) && PcOK(c, y, pc)
    ensures WorkersOK(c, y, s.workers[w := s.workers[w].(pc := pc)])
  {
    assert WorkerOK(c, s.x, s.workers[w]);
    WorkerStable(c, s.x, y, s.workers[w].(pc := Idle));
    WorkersKeep(c, s, y, w, s.workers[w].(pc := pc));
  }

  lemma AfterKeeps(c: Config, s: State, w: WorkerId, o: Outcome)
    requires Inv(c, s) && w in s.workers && OutcomeOK(c, s.x, o)
    requires c.exclusive ==> Exclusive(After(s, w, o))
    ensures Steps(c, s, After(s, w, o))
  {
    if o.Go? {
      Moved(c, s, w, o.x, o.pc);
    } else {
      GrowsReflexive(s.x);
      WorkersKeep(c, s, s.x, w, Worker([], Idle));
    }
  }

  lemma OutcomeHere(c: Config, s: State, w: WorkerId, ch: Choice)
    requires Supported(c) && Inv(c, s) && w in s.workers
    ensures OutcomeOK(c, s.x, Effect(c, s.x, s.workers[w].pc, ch))
  {
    AgreesHere(c, s, w);
    assert WorkerOK(c, s.x, s.workers[w]);
    EffectKeeps(c, s.x, s.workers[w].pc, ch);
  }

  lemma WorkKeeps(c: Config, s: State, w: WorkerId, ch: Choice)
    requires Supported(c) && Inv(c, s) && w in s.workers
    ensures Steps(c, s, After(s, w, Effect(c, s.x, s.workers[w].pc, ch)))
  {
    OutcomeHere(c, s, w, ch);
    if c.exclusive { WorkExclusive(c, s, w, ch); }
    AfterKeeps(c, s, w, Effect(c, s.x, s.workers[w].pc, ch));
  }

  lemma BatchOK(c: Config, x: Stores, ms: seq<Msg>)
    requires StreamOK(x.h.accepted, x.r.stream, x.r.nextEntry, x.r.pending)
    requires forall i :: 0 <= i < |ms| ==> ms[i].entry in x.r.stream && ms[i].f == x.r.stream[ms[i].entry]
    ensures Entries(ms) <= x.r.stream.Keys
    ensures WorkerOK(c, WithRedis(x, x.r.(pending := x.r.pending + Entries(ms))), Worker(ms, Idle))
  {}

  lemma ClaimKeeps(c: Config, s: State, w: WorkerId, ms: seq<Msg>, stolen: bool)
    requires Inv(c, s) && Enabled(c, s, Claim(w, ms, stolen))
    ensures Steps(c, s, Apply(c, s, Claim(w, ms, stolen)))
  {
    var y := WithRedis(s.x, s.x.r.(pending := s.x.r.pending + Entries(ms)));
    BatchOK(c, s.x, ms);
    ClaimKept(c, s.x, Entries(ms));
    WorkersKeep(c, s, y, w, Worker(ms, Idle));
    if c.exclusive { ClaimExclusive(c, s, w, ms, stolen); }
  }

  lemma DispatchOK(c: Config, x: Stores, k: Worker, fail: bool)
    requires WorkerOK(c, x, k) && k.batch != [] && (fail ==> c.hooks)
    ensures WorkerOK(c, x, Worker(k.batch[1..], LoadRow(k.batch[0], fail)))
  {}

  lemma DispatchKeeps(c: Config, s: State, w: WorkerId, fail: bool)
    requires Inv(c, s) && Enabled(c, s, Dispatch(w, fail))
    ensures Steps(c, s, Apply(c, s, Dispatch(w, fail)))
  {
    var k := s.workers[w];
    GrowsReflexive(s.x);
    DispatchOK(c, s.x, k, fail);
    WorkersKeep(c, s, s.x, w, Worker(k.batch[1..], LoadRow(k.batch[0], fail)));
    if c.exclusive { DispatchExclusive(c, s, w, fail); }
  }

  lemma CrashKeeps(c: Config, s: State, w: WorkerId)
    requires Inv(c, s)
    ensures Steps(c, s, s.(workers := s.workers[w := Worker([], Idle)]))
  {
    GrowsReflexive(s.x);
    WorkersKeep(c, s, s.x, w, Worker([], Idle));
    if c.exclusive { DieExclusive(c, s, w); }
  }

  lemma AddKeyKeeps(c: Config, s: State, j: JobId, material: Key)
    requires Inv(c, s) && Enabled(c, s, AddKey(j, material))
    ensures Steps(c, s, Apply(c, s, AddKey(j, material)))
  {
    var y := WithKeys(s.x, EnsureInsert(s.x.p.keys, j, material));
    AddKeyKept(c, s.x, j, material);
    StoresMove(c, s, y);
    if c.exclusive { SameQueue(s, y); }
  }

  lemma SameQueue(s: State, y: Stores)
    requires Exclusive(s) && y.h == s.x.h && y.r == s.x.r && y.p.rows == s.x.p.rows
    ensures Exclusive(s.(x := y))
  {
    forall w | w in s.workers ensures HoldsOK(y, s.workers[w]) { assert HoldsOK(s.x, s.workers[w]); }
  }

  lemma AddEntryKeeps(c: Config, s: State, j: JobId, job: Job)
    requires Inv(c, s) && Enabled(c, s, AddEntry(j, job))
    ensures Steps(c, s, Apply(c, s, AddEntry(j, job)))
  {
    AddEntryKept(c, s.x, j, job);
    StoresMove(c, s, WithJob(s.x, j, job));
    if c.exclusive { AddExclusive(c, s, j, job); }
  }

  lemma RecordKeeps(c: Config, s: State, y: Stores, t: Tenant, kind: string)
    requires Inv(c, s)
    requires y == s.x.(p := s.x.p.(ledger := Append(s.x.p, t, Other(kind)), policies := y.p.policies))
    requires ListsGrow(s.x.p.policies, y.p.policies)
    ensures Steps(c, s, s.(x := y))
  {
    OtherRecordKept(c, s.x, y, t, kind);
    StoresMove(c, s, y);
    if c.exclusive { SameQueue(s, y); }
  }

  /** Every action keeps the invariant and takes nothing back. */
  lemma StepKeeps(c: Config, s: State, a: Action)
    requires Supported(c) && Inv(c, s) && Enabled(c, s, a)
    ensures Steps(c, s, Apply(c, s, a))
  {
    match a
    case Join(w) => CrashKeeps(c, s, w);
    case AddKey(j, material) => AddKeyKeeps(c, s, j, material);
    case AddEntry(j, job) => AddEntryKeeps(c, s, j, job);
    case SetPolicy(t, doc) => RecordKeeps(c, s, Apply(c, s, a).x, t, "policy_changed");
    case AppendOther(t, kind) => RecordKeeps(c, s, Apply(c, s, a).x, t, kind);
    case Claim(w, ms, stolen) => ClaimKeeps(c, s, w, ms, stolen);
    case Dispatch(w, fail) => DispatchKeeps(c, s, w, fail);
    case Work(w, ch) => WorkKeeps(c, s, w, ch);
    case Crash(w) => CrashKeeps(c, s, w);
  }

  // ----- runs

  lemma {:induction false} RunInv(c: Config, states: seq<State>, acts: seq<Action>, i: nat)
    requires Supported(c) && IsRun(c, states, acts) && i < |states|
    ensures Inv(c, states[i])
  {
    if i == 0 {
      InitInv(c, states[0]);
    } else {
      RunInv(c, states, acts, i - 1);
      assert Takes(c, states[i - 1], acts[i - 1], states[i - 1 + 1]);
      StepKeeps(c, states[i - 1], acts[i - 1]);
    }
  }

  lemma StepGrows(c: Config, states: seq<State>, acts: seq<Action>, i: nat, next: nat)
    requires Supported(c) && IsRun(c, states, acts) && next == i + 1 && next < |states|
    ensures Grows(states[i].x, states[next].x)
  {
    RunInv(c, states, acts, i);
    assert Takes(c, states[i], acts[i], states[i + 1]);
    StepKeeps(c, states[i], acts[i]);
  }

  /** Rows, receipts, destroyed keys and ledger records are never changed or taken back. */
  lemma {:induction false} RunGrows(c: Config, states: seq<State>, acts: seq<Action>, i: nat, k: nat)
    requires Supported(c) && IsRun(c, states, acts) && i <= k < |states|
    ensures Grows(states[i].x, states[k].x)
    decreases k - i
  {
    if i == k {
      GrowsReflexive(states[i].x);
    } else {
      StepGrows(c, states, acts, i, i + 1);
      RunGrows(c, states, acts, i + 1, k);
      GrowsTransitive(states[i].x, states[i + 1].x, states[k].x);
    }
  }

  /** No entry of `j` is left: every delivery of it was acknowledged and deleted. */
  ghost predicate Acked(x: Stores, j: JobId) { forall e :: e in x.r.stream ==> x.r.stream[e].id != j }

  /** A receipt implies a row, a destroyed key implies a receipt with that very time, and an
      acknowledged job has row, receipt and a destroyed key. */
  lemma PurgeSafety(c: Config, states: seq<State>, acts: seq<Action>, i: nat, j: JobId)
    requires Supported(c) && IsRun(c, states, acts) && i < |states| && Known(states[i].x, j)
    ensures var p := states[i].x.p;
            && (j in p.receipts ==> j in p.rows)
            && j in p.keys && (p.keys[j].Destroyed? ==> j in p.receipts && p.receipts[j] == p.keys[j].at)
            && (Acked(states[i].x, j) ==> Done(p, j))
  {
    RunInv(c, states, acts, i);
    JobAt(c, states[i].x, j);
  }

  /** After the acknowledgement the job is purged for good: at no later state can a checkpoint
      be opened, not even one a stale worker writes, nor does the key or the receipt change. */
  lemma PurgedForever(c: Config, states: seq<State>, acts: seq<Action>, i: nat, k: nat, j: JobId)
    requires Supported(c) && IsRun(c, states, acts) && i <= k < |states|
    requires Known(states[i].x, j) && Acked(states[i].x, j)
    ensures var p, q := states[i].x.p, states[k].x.p;
            && Done(p, j) && Done(q, j)
            && q.rows[j] == p.rows[j] && q.receipts[j] == p.receipts[j] && q.keys[j] == p.keys[j]
            && LoadCheckpoint(states[k].x, j) == None
  {
    PurgeSafety(c, states, acts, i, j);
    RunGrows(c, states, acts, i, k);
  }

  /** Entry `e` is the one `Add` made for `j` and its live key opens it to the accepted input. */
  ghost predicate Recoverable(x: Stores, e: EntryId, j: JobId)
    requires Known(x, j) && e in x.r.stream
  {
    && x.r.stream[e] == FieldsOf(j, x.h.accepted[j])
    && j in x.p.keys && x.p.keys[j].Live?
    && Open(x.p.keys[j].key, x.r.stream[e].input) == Some(x.h.accepted[j].plain)
  }

  /** An accepted job has a row, or an entry still holds the ciphertext `Add` sealed and the
      live key opens it to the accepted input. */
  lemma NoJobLost(c: Config, states: seq<State>, acts: seq<Action>, i: nat, j: JobId)
    requires Supported(c) && IsRun(c, states, acts) && i < |states| && Known(states[i].x, j)
    ensures var x := states[i].x;
            j in x.p.rows || exists e :: e in x.r.stream && Recoverable(x, e, j)
  {
    RunInv(c, states, acts, i);
    var x := states[i].x;
    JobAt(c, x, j);
    if j !in x.p.rows {
      var e := x.h.home[j];
      assert e in x.r.stream && Recoverable(x, e, j);
    }
  }

  /** The fields of a known job with its input sealed under its own key. */
  ghost predicate OwnCiphertext(x: Stores, f: Fields) {
    Known(x, f.id) && var job := x.h.accepted[f.id];
    f == Fields(f.id, job.tenant, job.jobType, Sealed(job.key, job.plain))
  }

  /** The stream only ever carries sealed inputs, requeued ones included; dead letters keep
      every other field and name failed jobs. */
  lemma OnlyCiphertextQueued(c: Config, states: seq<State>, acts: seq<Action>, i: nat)
    requires Supported(c) && IsRun(c, states, acts) && i < |states|
    ensures var x := states[i].x;
            && (forall e :: e in x.r.stream ==> OwnCiphertext(x, x.r.stream[e]))
            && DlqOK(x.h.accepted, x.p.rows, x.r.dlq)
  {
    RunInv(c, states, acts, i);
  }

  /** Exactly one ledger record per purge, in the job's own chain and nowhere else. */
  lemma OneLedgerRecord(c: Config, states: seq<State>, acts: seq<Action>, i: nat, j: JobId, t: Tenant)
    requires Supported(c) && IsRun(c, states, acts) && i < |states| && Known(states[i].x, j)
    ensures var x := states[i].x;
            CountPurges(LedgerOf(x.p, t), j) == if j in x.p.receipts && t == x.h.accepted[j].tenant then 1 else 0
  {
    RunInv(c, states, acts, i);
    var x := states[i].x;
    JobAt(c, x, j);
    if t != x.h.accepted[j].tenant { NotInChain(x, t, j); }
  }

  /** The output of a run that no crash interrupts and no policy governs. */
  ghost function Uninterrupted(c: Config, job: Job): Option<string> {
    if TypeName(job.jobType) !in c.runners then None else
    var runner := c.runners[TypeName(job.jobType)];
    match runner.first(job.plain)
    case None => None
    case Some(partial) => Some(runner.rest(partial))
  }

  lemma CheckpointMeaning(c: Config, x: Stores, j: JobId)
    requires Known(x, j) && JobOK(c, Docs(x, j), ViewOf(x, j)) && LoadCheckpoint(x, j).Some?
    ensures IsFirst(c, x.h.accepted[j], LoadCheckpoint(x, j).value)
  {}

  lemma RowMeaning(c: Config, docs: seq<string>, job: Job, row: Row)
    requires RowOK(c, docs, job, row) && row.state.Completed?
    ensures ValidOutput(c, docs, job, row.body) && (docs == [] ==> Uninterrupted(c, job) == Some(row.body))
  {}

  /** Crashes and resumes preserve meaning: while the tenant has no policy, a completed row
      holds what one uninterrupted run computes, and a checkpoint opens to its first step. */
  lemma ResumePreservesMeaning(c: Config, states: seq<State>, acts: seq<Action>, i: nat, j: JobId)
    requires Supported(c) && IsRun(c, states, acts) && i < |states| && Known(states[i].x, j)
    ensures var x := states[i].x; var job := x.h.accepted[j];
            && (LoadCheckpoint(x, j).Some? ==> IsFirst(c, job, LoadCheckpoint(x, j).value))
            && (j in x.p.rows && x.p.rows[j].state.Completed? ==>
                  ValidOutput(c, PoliciesOf(x.p, job.tenant), job, x.p.rows[j].body))
            && (j in x.p.rows && x.p.rows[j].state.Completed? && PoliciesOf(x.p, job.tenant) == [] ==>
                  Uninterrupted(c, job) == Some(x.p.rows[j].body))
  {
    RunInv(c, states, acts, i);
    MeaningAt(c, states[i].x, j);
  }

  lemma MeaningAt(c: Config, x: Stores, j: JobId)
    requires Shared(c, x) && Known(x, j)
    ensures var job := x.h.accepted[j];
            && (LoadCheckpoint(x, j).Some? ==> IsFirst(c, job, LoadCheckpoint(x, j).value))
            && (j in x.p.rows && x.p.rows[j].state.Completed? ==>
                  ValidOutput(c, PoliciesOf(x.p, job.tenant), job, x.p.rows[j].body))
            && (j in x.p.rows && x.p.rows[j].state.Completed? && PoliciesOf(x.p, job.tenant) == [] ==>
                  Uninterrupted(c, job) == Some(x.p.rows[j].body))
  {
    JobAt(c, x, j);
    if LoadCheckpoint(x, j).Some? { CheckpointMeaning(c, x, j); }
    if j in x.p.rows && x.p.rows[j].state.Completed? { RowMeaning(c, Docs(x, j), x.h.accepted[j], x.p.rows[j]); }
  }

  lemma InputOpens(c: Config, x: Stores, pc: PC, ch: Choice)
    requires Ready(c, x, pc) && pc.LoadKey? && TypeName(pc.m.f.jobType) in c.runners
    ensures var o := Effect(c, x, pc, ch);
            o.Go? ==> o == Go(x, Running(pc.m, pc.fail, pc.saved, x.h.accepted[pc.m.f.id].plain))
  {}

  lemma ReceiptFound(c: Config, x: Stores, pc: PC, ch: Choice)
    requires PcOK(c, x, pc) && pc.PurgeGetAgain?
    ensures Effect(c, x, pc, ch) == Go(x, PurgeDestroy(pc.m, x.p.receipts[pc.m.f.id], pc.via))
  {}

  /** Three error returns never happen to an accepted job: a receipt missing after a conflict,
      a key row missing at load, and an input that does not open under its live key. */
  lemma NeverMissing(c: Config, states: seq<State>, acts: seq<Action>, i: nat, w: WorkerId, ch: Choice)
    requires Supported(c) && IsRun(c, states, acts) && i < |states| && w in states[i].workers
    ensures var x := states[i].x; var pc := states[i].workers[w].pc; var o := Effect(c, x, pc, ch);
            && (pc.PurgeGetAgain? ==> o.Go? && o.pc.PurgeDestroy?)
            && (pc.LoadKey? && TypeName(pc.m.f.jobType) in c.runners ==> o.Dead? || o.pc.Running?)
  {
    RunInv(c, states, acts, i);
    var x, pc := states[i].x, states[i].workers[w].pc;
    assert WorkerOK(c, x, states[i].workers[w]);
    if pc.PurgeGetAgain? {
      ReceiptFound(c, x, pc, ch);
    } else if pc.LoadKey? && TypeName(pc.m.f.jobType) in c.runners {
      JobAt(c, x, pc.m.f.id);
      InputOpens(c, x, pc, ch);
    }
  }

  /** Under exclusive claims: the counter is absent, 1 or 2, a job is requeued at most twice
      and has at most one live entry. */
  lemma RetryBounds(c: Config, states: seq<State>, acts: seq<Action>, i: nat, j: JobId)
    requires Supported(c) && c.exclusive && IsRun(c, states, acts) && i < |states| && Known(states[i].x, j)
    ensures var x := states[i].x;
            && (j in x.r.retry ==> x.r.retry[j] == 1 || x.r.retry[j] == 2)
            && j in x.h.requeues && x.h.requeues[j] <= 2
            && (forall e, f ::
                  e in x.r.stream && f in x.r.stream && x.r.stream[e].id == j && x.r.stream[f].id == j ==> e == f)
  {
    RunInv(c, states, acts, i);
    assert Exclusive(states[i]);
  }

  ghost predicate BuriedBy(r: Redis, r': Redis, m: Msg) {
    && r'.dlq == r.dlq + [DeadLetter(m.f.id, m.f.tenant, m.f.jobType)]
    && r'.stream == r.stream - {m.entry} && m.f.id !in r'.retry
  }

  ghost predicate RequeuedBy(r: Redis, r': Redis, m: Msg, n: int) {
    && m.entry !in r'.stream && r.nextEntry !in r.stream
    && r'.stream == (r.stream - {m.entry})[r.nextEntry := m.f]
    && RetryOf(r', m.f.id) == n && r'.dlq == r.dlq
  }

  lemma SettleBuries(c: Config, x: Stores, m: Msg, ch: Choice)
    requires RetryOf(x.r, m.f.id) == 2
    ensures var o := Effect(c, x, Settle(m, 2), ch); o.Go? && BuriedBy(x.r, o.x.r, m)
  {
    BuryIs(c, x, Settle(m, 2), ch);
  }

  lemma SettleRequeues(c: Config, x: Stores, m: Msg, seen: int, ch: Choice)
    requires RetryOf(x.r, m.f.id) == seen < 2 && m.entry in x.r.stream
    requires StreamOK(x.h.accepted, x.r.stream, x.r.nextEntry, x.r.pending)
    ensures var o := Effect(c, x, Settle(m, seen), ch); o.Go? && RequeuedBy(x.r, o.x.r, m, seen + 1)
  {
    RequeueIs(c, x, Settle(m, seen), ch);
  }

  lemma SettlerHolds(x: Stores, k: Worker)
    requires HoldsOK(x, k) && k.pc.Settle?
    ensures RetryOf(x.r, k.pc.m.f.id) == k.pc.seen && k.pc.m.entry in x.r.stream
    ensures k.pc.seen < 2 ==> k.pc.m.f.id !in x.p.rows
  {
    assert k.pc.m.entry in Held(k);
  }

  lemma SettlerPurged(c: Config, x: Stores, pc: PC)
    requires PcOK(c, x, pc) && pc.Settle? && pc.seen == 2
    ensures FailedRow(x.p.rows, pc.m.f.id) && Done(x.p, pc.m.f.id)
  {}

  lemma CounterBounds(h: History, r: Redis, j: JobId)
    requires QueueOK(h, r)
    ensures 0 <= RetryOf(r, j) <= 2
  {}

  /** What a worker about to settle knows, given that no other holds its entry. */
  lemma SettlerKnows(c: Config, s: State, w: WorkerId)
    requires WorkersOK(c, s.x, s.workers) && Exclusive(s) && w in s.workers && s.workers[w].pc.Settle?
    ensures var x := s.x; var Settle(m, seen) := s.workers[w].pc;
            && RetryOf(x.r, m.f.id) == seen && 0 <= seen <= 2 && m.entry in x.r.stream
            && (seen == 2 ==> FailedRow(x.p.rows, m.f.id) && Done(x.p, m.f.id)) && (seen < 2 ==> m.f.id !in x.p.rows)
  {
    var k := s.workers[w];
    assert HoldsOK(s.x, k) && WorkerOK(c, s.x, k);
    SettlerHolds(s.x, k);
    CounterBounds(s.x.h, s.x.r, k.pc.m.f.id);
    if k.pc.seen == 2 { SettlerPurged(c, s.x, k.pc); }
  }

  /** Under exclusive claims the look at the counter agrees with the settle script: the script
      buries exactly when it saw two attempts, and then a failed row and the whole purge are
      committed; otherwise it requeues the claimed fields and no row exists. */
  lemma PeekAgreesWithSettle(c: Config, states: seq<State>, acts: seq<Action>, i: nat, w: WorkerId, ch: Choice)
    requires Supported(c) && c.exclusive && IsRun(c, states, acts) && i < |states|
    requires w in states[i].workers && states[i].workers[w].pc.Settle?
    ensures var x := states[i].x; var Settle(m, seen) := states[i].workers[w].pc;
            var o := Effect(c, x, Settle(m, seen), ch);
            && o.Go? && RetryOf(x.r, m.f.id) == seen && 0 <= seen <= 2 && m.entry in x.r.stream
            && (seen == 2 ==> (FailedRow(x.p.rows, m.f.id) && Done(x.p, m.f.id) && BuriedBy(x.r, o.x.r, m)))
            && (seen < 2 ==> (m.f.id !in x.p.rows && RequeuedBy(x.r, o.x.r, m, seen + 1)))
  {
    RunInv(c, states, acts, i);
    SettlerKnows(c, states[i], w);
    var Settle(m, seen) := states[i].workers[w].pc;
    if seen == 2 { SettleBuries(c, states[i].x, m, ch); } else { SettleRequeues(c, states[i].x, m, seen, ch); }
  }
}
