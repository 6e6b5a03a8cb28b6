/**
  What handling one claimed entry does from start to end, when the worker is left alone: which
  row, receipt, key, checkpoint, stream entry, counter and dead letter it leaves. From every
  reachable state the worker gets there.
 */
module HandleAlone {
  import opened Basics
  import opened Protocol
  import opened ProtocolInvariant
  import opened ProtocolStores
  import opened ProtocolTheorems

  /** The worker takes n effects without anybody else moving. */
  ghost predicate Leads(c: Config, ch: Choice, x: Stores, pc: PC, y: Stores, pc': PC, n: nat)
    decreases n
  {
    if n == 0 then x == y && pc == pc'
    else
      Effect(c, x, pc, ch).Go? && Leads(c, ch, Effect(c, x, pc, ch).x, Effect(c, x, pc, ch).pc, y, pc', n - 1)
  }

  lemma Once(c: Config, ch: Choice, x: Stores, pc: PC, y: Stores, pc': PC)
    requires Effect(c, x, pc, ch) == Go(y, pc')
    ensures Leads(c, ch, x, pc, y, pc', 1)
  {
    assert Leads(c, ch, y, pc', y, pc', 0);
  }

  lemma {:induction false} Then(c: Config, ch: Choice, x: Stores, pc: PC, y: Stores, pc': PC, z: Stores, pc'': PC,
                                n: nat, m: nat)
    requires Leads(c, ch, x, pc, y, pc', n) && Leads(c, ch, y, pc', z, pc'', m)
    ensures Leads(c, ch, x, pc, z, pc'', n + m)
    decreases n
  {
    if n > 0 { Then(c, ch, Effect(c, x, pc, ch).x, Effect(c, x, pc, ch).pc, y, pc', z, pc'', n - 1, m); }
  }

  /** One more effect at the end. */
  lemma Next(c: Config, ch: Choice, x: Stores, pc: PC, y: Stores, pc': PC, n: nat, z: Stores, pc'': PC)
    requires Leads(c, ch, x, pc, y, pc', n) && Effect(c, y, pc', ch) == Go(z, pc'')
    ensures Leads(c, ch, x, pc, z, pc'', n + 1)
  {
    Once(c, ch, y, pc', z, pc'');
    Then(c, ch, x, pc, y, pc', z, pc'', n, 1);
  }

  // ----- what is left, written out

  /** The purge of m's job at time `at`: receipt and ledger record unless there was a receipt, a
      destroyed key, no checkpoint, and nothing else. */
  ghost predicate PurgeDone(x: Stores, y: Stores, m: Msg, at: Time) {
    && var j := m.f.id;
    && (j in x.p.receipts ==> at == x.p.receipts[j] && y.p.receipts == x.p.receipts && y.p.ledger == x.p.ledger)
    && (j !in x.p.receipts ==>
          && y.p.receipts == x.p.receipts[j := at]
          && y.p.ledger == x.p.ledger[m.f.tenant := LedgerOf(x.p, m.f.tenant) + [PurgeReceipt(j, at)]])
    && y.p.keys == (if j in x.p.keys && x.p.keys[j].Live? then x.p.keys[j := Destroyed(at)] else x.p.keys)
    && y.r.mem == x.r.mem - {j}
    && y.p.rows == x.p.rows && y.p.policies == x.p.policies && y.h == x.h
    && y.r.stream == x.r.stream && y.r.nextEntry == x.r.nextEntry && y.r.pending == x.r.pending
    && y.r.dlq == x.r.dlq && y.r.retry == x.r.retry
  }

  /** The entry is gone; dead letters and counter are as before. */
  ghost predicate Released(r: Redis, r': Redis, e: EntryId) {
    && r'.stream == r.stream - {e} && r'.pending == r.pending - {e} && r'.nextEntry == r.nextEntry
    && r'.dlq == r.dlq && r'.retry == r.retry && r'.mem == r.mem
  }

  /** The entry is gone and its fields, without the input, are a dead letter. */
  ghost predicate BuriedEntry(r: Redis, r': Redis, m: Msg) {
    && r'.stream == r.stream - {m.entry} && r'.pending == r.pending - {m.entry} && r'.nextEntry == r.nextEntry
    && r'.dlq == r.dlq + [DeadLetter(m.f.id, m.f.tenant, m.f.jobType)]
    && r'.retry == r.retry - {m.f.id} && r'.mem == r.mem
  }

  /** The claimed fields are a new entry, and the counter says how often. */
  ghost predicate RequeuedEntry(r: Redis, r': Redis, m: Msg, n: int) {
    && r'.stream == (r.stream - {m.entry})[r.nextEntry := m.f] && r'.pending == r.pending - {m.entry}
    && r'.nextEntry == r.nextEntry + 1 && r'.dlq == r.dlq && r'.retry == r.retry[m.f.id := n] && r'.mem == r.mem
  }

  // ----- the purge

  lemma PurgeFrom(c: Config, ch: Choice, x: Stores, m: Msg, at: Time, via: Via) returns (y: Stores)
    ensures Leads(c, ch, x, PurgeDestroy(m, at, via), y, AfterPurge(m, via), 2)
    ensures y == WithMem(WithKeys(x, Destroy(x.p.keys, m.f.id, at)), x.r.mem - {m.f.id})
  {
    var z := WithKeys(x, Destroy(x.p.keys, m.f.id, at));
    y := WithMem(z, z.r.mem - {m.f.id});
    Once(c, ch, x, PurgeDestroy(m, at, via), z, PurgeDrop(m, via));
    Next(c, ch, x, PurgeDestroy(m, at, via), z, PurgeDrop(m, via), 1, y, AfterPurge(m, via));
  }

  lemma Purges(c: Config, ch: Choice, x: Stores, m: Msg, via: Via) returns (y: Stores, n: nat)
    ensures Leads(c, ch, x, PurgeGet(m, via), y, AfterPurge(m, via), n)
    ensures PurgeDone(x, y, m, if m.f.id in x.p.receipts then x.p.receipts[m.f.id] else ch.now)
  {
    var j := m.f.id;
    if j in x.p.receipts {
      var destroy := PurgeDestroy(m, x.p.receipts[j], via);
      Once(c, ch, x, PurgeGet(m, via), x, destroy);
      y := PurgeFrom(c, ch, x, m, x.p.receipts[j], via);
      Then(c, ch, x, PurgeGet(m, via), x, destroy, y, AfterPurge(m, via), 1, 2);
      n := 3;
    } else {
      var insert, destroy := PurgeInsert(m, ch.now, via), PurgeDestroy(m, ch.now, via);
      var z := WithReceipt(x, m.f.tenant, j, ch.now);
      Once(c, ch, x, PurgeGet(m, via), x, insert);
      Next(c, ch, x, PurgeGet(m, via), x, insert, 1, z, destroy);
      y := PurgeFrom(c, ch, z, m, ch.now, via);
      Then(c, ch, x, PurgeGet(m, via), z, destroy, y, AfterPurge(m, via), 2, 2);
      n := 4;
    }
  }

  /** Purge, then acknowledge. */
  lemma PurgesAndReleases(c: Config, ch: Choice, x: Stores, m: Msg, via: Via) returns (y: Stores, z: Stores, n: nat)
    requires via.Journaled? || via.Success?
    ensures Leads(c, ch, x, PurgeGet(m, via), z, Idle, n)
    ensures PurgeDone(x, y, m, if m.f.id in x.p.receipts then x.p.receipts[m.f.id] else ch.now)
    ensures z.p == y.p && z.h == y.h && Released(y.r, z.r, m.entry)
  {
    y, n := Purges(c, ch, x, m, via);
    z := WithRedis(y, Drop(y.r, m.entry));
    Next(c, ch, x, PurgeGet(m, via), y, Finish(m), n, z, Idle);
    n := n + 1;
  }

  /** Purge, then bury. */
  lemma PurgesAndBuries(c: Config, ch: Choice, x: Stores, m: Msg, via: Via) returns (y: Stores, z: Stores, n: nat)
    requires via.Bury? || (via.FailHook? && RetryOf(x.r, m.f.id) >= 2)
    ensures Leads(c, ch, x, PurgeGet(m, via), z, Idle, n)
    ensures PurgeDone(x, y, m, if m.f.id in x.p.receipts then x.p.receipts[m.f.id] else ch.now)
    ensures z.p == y.p && z.h == y.h && BuriedEntry(y.r, z.r, m)
  {
    y, n := Purges(c, ch, x, m, via);
    z := WithRedis(y, Buried(y.r, m));
    Next(c, ch, x, PurgeGet(m, via), y, AfterPurge(m, via), n, z, Idle);
    n := n + 1;
  }

  // ----- up to the runner

  /** What a worker that takes up an accepted job without a row can rely on. */
  ghost predicate Startable(c: Config, x: Stores, m: Msg, job: Job) {
    && m.f == FieldsOf(m.f.id, job) && m.f.id !in x.p.rows && m.f.id !in x.p.receipts
    && m.f.id in x.p.keys && x.p.keys[m.f.id] == Live(job.key)
    && (m.f.id in x.r.mem ==> CheckpointOK(c, job, x.r.mem[m.f.id]))
  }

  lemma CanStart(c: Config, x: Stores, m: Msg)
    requires Shared(c, x) && MsgOK(x, m) && m.f.id !in x.p.rows
    ensures Startable(c, x, m, x.h.accepted[m.f.id])
  {
    JobAt(c, x, m.f.id);
  }

  /** The checkpoint, if there is one, and then the input key. */
  lemma LoadsCheckpoint(c: Config, ch: Choice, x: Stores, m: Msg, fail: bool, job: Job)
    returns (saved: Option<string>, n: nat)
    requires Startable(c, x, m, job)
    ensures Leads(c, ch, x, LoadRow(m, fail), x, LoadKey(m, fail, saved), n)
    ensures saved.Some? <==> m.f.id in x.r.mem
    ensures saved.Some? ==> IsFirst(c, job, saved.value)
  {
    Once(c, ch, x, LoadRow(m, fail), x, LoadMem(m, fail));
    if m.f.id in x.r.mem {
      var sealed := x.r.mem[m.f.id];
      saved := Some(sealed.plain);
      Next(c, ch, x, LoadRow(m, fail), x, LoadMem(m, fail), 1, x, MemInsert(m, fail, sealed));
      Next(c, ch, x, LoadRow(m, fail), x, MemInsert(m, fail, sealed), 2, x, MemSelect(m, fail, sealed));
      Next(c, ch, x, LoadRow(m, fail), x, MemSelect(m, fail, sealed), 3, x, LoadKey(m, fail, saved));
      n := 4;
    } else {
      saved := None;
      Next(c, ch, x, LoadRow(m, fail), x, LoadMem(m, fail), 1, x, LoadKey(m, fail, None));
      n := 2;
    }
  }

  /** A job of a known type reaches its runner with the submitted text. */
  lemma Starts(c: Config, ch: Choice, x: Stores, m: Msg, fail: bool, job: Job) returns (saved: Option<string>, n: nat)
    requires Startable(c, x, m, job) && TypeName(job.jobType) in c.runners
    ensures Leads(c, ch, x, LoadRow(m, fail), x, Running(m, fail, saved, job.plain), n)
    ensures saved.Some? ==> IsFirst(c, job, saved.value)
  {
    saved, n := LoadsCheckpoint(c, ch, x, m, fail, job);
    Next(c, ch, x, LoadRow(m, fail), x, LoadKey(m, fail, saved), n, x, Running(m, fail, saved, job.plain));
    n := n + 1;
  }

  /** What the runner computes, given the stored policies. */
  ghost function Output(runner: Runner, plain: string, docs: seq<string>): string
    requires runner.first(plain).Some?
  {
    if runner.usesPolicy && docs != [] then runner.underPolicy(plain, docs[|docs| - 1])
    else runner.rest(runner.first(plain).value)
  }

  /** Where the worker stands with the output: about to record it, or about to look at the retry
      counter if it was ordered to fail. */
  ghost predicate WithOutput(m: Msg, fail: bool, out: string, pc: PC) {
    pc == if fail then Peek(m, out) else Commit(m, Row(Completed, out, m.f.tenant), Success)
  }

  /** Only the checkpoint may have changed. */
  ghost predicate OnlyCheckpoint(x: Stores, y: Stores, j: JobId) {
    y.h == x.h && y.p == x.p && y.r == x.r.(mem := y.r.mem) && y.r.mem - {j} == x.r.mem - {j}
  }

  lemma Saves(c: Config, ch: Choice, x: Stores, m: Msg, fail: bool, job: Job, partial: string)
    returns (y: Stores, pc: PC)
    requires Startable(c, x, m, job) && TypeName(job.jobType) in c.runners
    ensures Leads(c, ch, x, SaveInsert(m, fail, partial), y, pc, 3)
    ensures WithOutput(m, fail, c.runners[TypeName(job.jobType)].rest(partial), pc) && OnlyCheckpoint(x, y, m.f.id)
  {
    var sealed := Sealed(job.key, partial);
    y := WithMem(x, x.r.mem[m.f.id := sealed]);
    pc := Computed(m, fail, c.runners[TypeName(job.jobType)].rest(partial));
    Once(c, ch, x, SaveInsert(m, fail, partial), x, SaveSelect(m, fail, partial));
    Next(c, ch, x, SaveInsert(m, fail, partial), x, SaveSelect(m, fail, partial), 1,
         x, SaveSet(m, fail, partial, sealed));
    Next(c, ch, x, SaveInsert(m, fail, partial), x, SaveSet(m, fail, partial, sealed), 2, y, pc);
  }

  /** An accepted input is run to its output. */
  lemma Runs(c: Config, ch: Choice, x: Stores, m: Msg, fail: bool, job: Job, saved: Option<string>)
    returns (y: Stores, pc: PC, n: nat)
    requires Startable(c, x, m, job) && TypeName(job.jobType) in c.runners
    requires saved.Some? ==> IsFirst(c, job, saved.value)
    requires var runner := c.runners[TypeName(job.jobType)];
             runner.first(job.plain).Some? && !(runner.usesPolicy && ch.policyFails)
    ensures Leads(c, ch, x, Running(m, fail, saved, job.plain), y, pc, n) && OnlyCheckpoint(x, y, m.f.id)
    ensures WithOutput(m, fail, Output(c.runners[TypeName(job.jobType)], job.plain, PoliciesOf(x.p, job.tenant)), pc)
  {
    var runner := c.runners[TypeName(job.jobType)];
    var run := Running(m, fail, saved, job.plain);
    if (runner.usesPolicy && PoliciesOf(x.p, job.tenant) != []) || saved.Some? {
      y, pc, n := x, Computed(m, fail, Output(runner, job.plain, PoliciesOf(x.p, job.tenant))), 1;
      Once(c, ch, x, run, x, pc);
    } else {
      var partial := runner.first(job.plain).value;
      Once(c, ch, x, run, x, SaveInsert(m, fail, partial));
      y, pc := Saves(c, ch, x, m, fail, job, partial);
      Then(c, ch, x, run, x, SaveInsert(m, fail, partial), y, pc, 1, 3);
      n := 4;
    }
  }

  // ----- from start to end

  /** The job has this row, and no other row changed. */
  ghost predicate Recorded(x: Stores, y: Stores, j: JobId, row: Row) { y.p.rows == x.p.rows[j := row] }

  /** The whole purge at `at`, seen from the start: other jobs are untouched. */
  ghost predicate Gone(x: Stores, z: Stores, m: Msg, at: Time) {
    && z.p.receipts == x.p.receipts[m.f.id := at]
    && z.p.keys == x.p.keys[m.f.id := Destroyed(at)]
    && z.p.ledger == x.p.ledger[m.f.tenant := LedgerOf(x.p, m.f.tenant) + [PurgeReceipt(m.f.id, at)]]
    && z.r.mem == x.r.mem - {m.f.id}
    && z.r.stream == x.r.stream - {m.entry} && z.r.pending == x.r.pending - {m.entry}
  }

  lemma Records(c: Config, ch: Choice, x: Stores, m: Msg, row: Row, via: Via) returns (y: Stores)
    requires m.f.id !in x.p.rows
    ensures Leads(c, ch, x, Commit(m, row, via), y, PurgeGet(m, via), 1)
    ensures y == x.(p := x.p.(rows := x.p.rows[m.f.id := row]))
  {
    y := WithRow(x, m.f.id, row);
    Once(c, ch, x, Commit(m, row, via), y, PurgeGet(m, via));
  }

  lemma GoneAfterRelease(c: Config, x: Stores, w: Stores, row: Row, y: Stores, z: Stores, m: Msg, job: Job, at: Time)
    requires Startable(c, x, m, job) && OnlyCheckpoint(x, w, m.f.id)
    requires PurgeDone(w.(p := w.p.(rows := w.p.rows[m.f.id := row])), y, m, at)
    requires z.p == y.p && z.r.stream == y.r.stream - {m.entry}
    requires z.r.pending == y.r.pending - {m.entry} && z.r.mem == y.r.mem
    ensures Gone(x, z, m, at) && Recorded(x, z, m.f.id, row)
  {}

  /** A job of a known type with an accepted input: COMPLETED with its output, purged and
      acknowledged, without a dead letter and without touching the counter. */
  lemma HandlesAccepted(c: Config, ch: Choice, x: Stores, m: Msg, job: Job) returns (z: Stores, n: nat)
    requires Startable(c, x, m, job) && TypeName(job.jobType) in c.runners
    requires var runner := c.runners[TypeName(job.jobType)];
             runner.first(job.plain).Some? && !(runner.usesPolicy && ch.policyFails)
    ensures Leads(c, ch, x, LoadRow(m, false), z, Idle, n) && Gone(x, z, m, ch.now)
    ensures var out := Output(c.runners[TypeName(job.jobType)], job.plain, PoliciesOf(x.p, job.tenant));
            Recorded(x, z, m.f.id, Row(Completed, out, job.tenant))
    ensures z.r.dlq == x.r.dlq && z.r.retry == x.r.retry
  {
    var saved, a := Starts(c, ch, x, m, false, job);
    var w, pc, b := Runs(c, ch, x, m, false, job, saved);
    Then(c, ch, x, LoadRow(m, false), x, Running(m, false, saved, job.plain), w, pc, a, b);
    var v := Records(c, ch, w, m, pc.row, Success);
    Then(c, ch, x, LoadRow(m, false), w, pc, v, PurgeGet(m, Success), a + b, 1);
    var y, d;
    y, z, d := PurgesAndReleases(c, ch, v, m, Success);
    Then(c, ch, x, LoadRow(m, false), v, PurgeGet(m, Success), z, Idle, a + b + 1, d);
    n := a + b + 1 + d;
    GoneAfterRelease(c, x, w, pc.row, y, z, m, job, ch.now);
  }

  /** From the decision to bury on. */
  lemma Buries(c: Config, ch: Choice, x: Stores, m: Msg, job: Job, w: Stores, row: Row, via: Via)
    returns (z: Stores, n: nat)
    requires Startable(c, x, m, job) && OnlyCheckpoint(x, w, m.f.id)
    requires via.Bury? || (via.FailHook? && RetryOf(x.r, m.f.id) >= 2)
    ensures Leads(c, ch, w, Commit(m, row, via), z, Idle, n)
    ensures Gone(x, z, m, ch.now) && Recorded(x, z, m.f.id, row)
    ensures z.r.dlq == x.r.dlq + [DeadLetter(m.f.id, m.f.tenant, m.f.jobType)] && z.r.retry == x.r.retry - {m.f.id}
  {
    var v := Records(c, ch, w, m, row, via);
    var y, d;
    y, z, d := PurgesAndBuries(c, ch, v, m, via);
    Then(c, ch, w, Commit(m, row, via), v, PurgeGet(m, via), z, Idle, 1, d);
    n := 1 + d;
    GoneAfterRelease(c, x, w, row, y, z, m, job, ch.now);
  }

  /** Where a rejected job is turned away, and why. */
  lemma TurnedAway(c: Config, ch: Choice, x: Stores, m: Msg, fail: bool, job: Job) returns (reason: string, n: nat)
    requires Startable(c, x, m, job)
    requires || TypeName(job.jobType) !in c.runners
             || c.runners[TypeName(job.jobType)].first(job.plain).None?
             || (c.runners[TypeName(job.jobType)].usesPolicy && ch.policyFails)
    ensures Leads(c, ch, x, LoadRow(m, fail), x, Commit(m, Row(Failed, reason, m.f.tenant), Bury), n)
    ensures reason == if TypeName(job.jobType) in c.runners then "runner failed" else "unknown job_type"
  {
    if TypeName(job.jobType) in c.runners {
      var saved, a := Starts(c, ch, x, m, fail, job);
      reason, n := "runner failed", a + 1;
      Next(c, ch, x, LoadRow(m, fail), x, Running(m, fail, saved, job.plain), a,
           x, Commit(m, FailRow(m, reason), Bury));
    } else {
      var saved, a := LoadsCheckpoint(c, ch, x, m, fail, job);
      reason, n := "unknown job_type", a + 1;
      Next(c, ch, x, LoadRow(m, fail), x, LoadKey(m, fail, saved), a, x, Commit(m, FailRow(m, reason), Bury));
    }
  }

  /** A job of an unknown type, with an input that is not accepted, or whose policy cannot be
      loaded: FAILED with the reason, purged, and buried with a dead letter. */
  lemma HandlesRejected(c: Config, ch: Choice, x: Stores, m: Msg, fail: bool, job: Job) returns (z: Stores, n: nat)
    requires Startable(c, x, m, job)
    requires || TypeName(job.jobType) !in c.runners
             || c.runners[TypeName(job.jobType)].first(job.plain).None?
             || (c.runners[TypeName(job.jobType)].usesPolicy && ch.policyFails)
    ensures Leads(c, ch, x, LoadRow(m, fail), z, Idle, n) && Gone(x, z, m, ch.now)
    ensures var reason := if TypeName(job.jobType) in c.runners then "runner failed" else "unknown job_type";
            Recorded(x, z, m.f.id, Row(Failed, reason, job.tenant))
    ensures z.r.dlq == x.r.dlq + [DeadLetter(m.f.id, m.f.tenant, m.f.jobType)] && z.r.retry == x.r.retry - {m.f.id}
  {
    var reason, a := TurnedAway(c, ch, x, m, fail, job);
    var b;
    z, b := Buries(c, ch, x, m, job, x, Row(Failed, reason, m.f.tenant), Bury);
    Then(c, ch, x, LoadRow(m, fail), x, Commit(m, Row(Failed, reason, m.f.tenant), Bury), z, Idle, a, b);
    n := a + b;
  }

  /** A job that already has a row: purged again if need be and acknowledged; its row, the dead
      letters and the counter are left alone. */
  lemma HandlesJournaled(c: Config, ch: Choice, x: Stores, m: Msg, fail: bool) returns (y: Stores, z: Stores, n: nat)
    requires m.f.id in x.p.rows
    ensures Leads(c, ch, x, LoadRow(m, fail), z, Idle, n)
    ensures PurgeDone(x, y, m, if m.f.id in x.p.receipts then x.p.receipts[m.f.id] else ch.now)
    ensures z.p == y.p && z.h == y.h && Released(y.r, z.r, m.entry)
  {
    Once(c, ch, x, LoadRow(m, fail), x, PurgeGet(m, Journaled));
    y, z, n := PurgesAndReleases(c, ch, x, m, Journaled);
    Then(c, ch, x, LoadRow(m, fail), x, PurgeGet(m, Journaled), z, Idle, 1, n);
    n := n + 1;
  }

  /** A job ordered to fail, with fewer than two attempts behind it: requeued with its claimed
      fields, counted, and not recorded. */
  lemma HandlesRetry(c: Config, ch: Choice, x: Stores, m: Msg, job: Job) returns (y: Stores, z: Stores, n: nat)
    requires Startable(c, x, m, job) && TypeName(job.jobType) in c.runners && RetryOf(x.r, m.f.id) < 2
    requires var runner := c.runners[TypeName(job.jobType)];
             runner.first(job.plain).Some? && !(runner.usesPolicy && ch.policyFails)
    ensures Leads(c, ch, x, LoadRow(m, true), z, Idle, n) && OnlyCheckpoint(x, y, m.f.id)
    ensures z.p == x.p && RequeuedEntry(y.r, z.r, m, RetryOf(x.r, m.f.id) + 1)
  {
    var saved, a := Starts(c, ch, x, m, true, job);
    var pc, b;
    y, pc, b := Runs(c, ch, x, m, true, job, saved);
    Then(c, ch, x, LoadRow(m, true), x, Running(m, true, saved, job.plain), y, pc, a, b);
    z := Requeues(c, ch, y, m, pc.out);
    Then(c, ch, x, LoadRow(m, true), y, pc, z, Idle, a + b, 2);
    n := a + b + 2;
  }

  /** The look at the counter and the settle script. */
  lemma Requeues(c: Config, ch: Choice, y: Stores, m: Msg, out: string) returns (z: Stores)
    requires RetryOf(y.r, m.f.id) < 2
    ensures Leads(c, ch, y, Peek(m, out), z, Idle, 2)
    ensures z.p == y.p && RequeuedEntry(y.r, z.r, m, RetryOf(y.r, m.f.id) + 1)
  {
    var seen := RetryOf(y.r, m.f.id);
    z := WithRequeue(y, m, seen + 1);
    Once(c, ch, y, Peek(m, out), y, Settle(m, seen));
    Next(c, ch, y, Peek(m, out), y, Settle(m, seen), 1, z, Idle);
  }

  /** A job ordered to fail for the third time: FAILED with its output, purged and buried. */
  lemma HandlesLastFailure(c: Config, ch: Choice, x: Stores, m: Msg, job: Job) returns (z: Stores, n: nat)
    requires Startable(c, x, m, job) && TypeName(job.jobType) in c.runners && RetryOf(x.r, m.f.id) >= 2
    requires var runner := c.runners[TypeName(job.jobType)];
             runner.first(job.plain).Some? && !(runner.usesPolicy && ch.policyFails)
    ensures Leads(c, ch, x, LoadRow(m, true), z, Idle, n) && Gone(x, z, m, ch.now)
    ensures var out := Output(c.runners[TypeName(job.jobType)], job.plain, PoliciesOf(x.p, job.tenant));
            Recorded(x, z, m.f.id, Row(Failed, out, job.tenant))
    ensures z.r.dlq == x.r.dlq + [DeadLetter(m.f.id, m.f.tenant, m.f.jobType)] && z.r.retry == x.r.retry - {m.f.id}
  {
    var saved, a := Starts(c, ch, x, m, true, job);
    var y, pc, b := Runs(c, ch, x, m, true, job, saved);
    Then(c, ch, x, LoadRow(m, true), x, Running(m, true, saved, job.plain), y, pc, a, b);
    var out := Output(c.runners[TypeName(job.jobType)], job.plain, PoliciesOf(x.p, job.tenant));
    var commit := Commit(m, Row(Failed, out, m.f.tenant), FailHook(RetryOf(x.r, m.f.id)));
    Next(c, ch, x, LoadRow(m, true), y, pc, a + b, y, commit);
    var d;
    z, d := Buries(c, ch, x, m, job, y, commit.row, commit.via);
    Then(c, ch, x, LoadRow(m, true), y, commit, z, Idle, a + b + 1, d);
    n := a + b + 1 + d;
  }

  // ----- in reachable states

  ghost predicate Accepts(c: Config, ch: Choice, job: Job) {
    && TypeName(job.jobType) in c.runners && c.runners[TypeName(job.jobType)].first(job.plain).Some?
    && !(c.runners[TypeName(job.jobType)].usesPolicy && ch.policyFails)
  }

  lemma ReachableStart(c: Config, states: seq<State>, acts: seq<Action>, i: nat, w: WorkerId)
    requires Supported(c) && IsRun(c, states, acts) && i < |states| && w in states[i].workers
    requires states[i].workers[w].pc.LoadRow? && states[i].workers[w].pc.m.f.id !in states[i].x.p.rows
    ensures var x, m := states[i].x, states[i].workers[w].pc.m;
            Known(x, m.f.id) && Startable(c, x, m, x.h.accepted[m.f.id])
  {
    RunInv(c, states, acts, i);
    assert WorkerOK(c, states[i].x, states[i].workers[w]);
    CanStart(c, states[i].x, states[i].workers[w].pc.m);
  }

  /** From every reachable state in which a worker takes up an accepted job that has no row, the
      worker, left alone, ends idle with the job COMPLETED, purged and acknowledged. */
  lemma ReachesCompletion(c: Config, states: seq<State>, acts: seq<Action>, i: nat, w: WorkerId, ch: Choice)
    returns (z: Stores, n: nat)
    requires Supported(c) && IsRun(c, states, acts) && i < |states| && w in states[i].workers
    requires states[i].workers[w].pc.LoadRow? && !states[i].workers[w].pc.fail
    requires var m := states[i].workers[w].pc.m;
             && m.f.id !in states[i].x.p.rows && Known(states[i].x, m.f.id)
             && Accepts(c, ch, states[i].x.h.accepted[m.f.id])
    ensures var x, m := states[i].x, states[i].workers[w].pc.m; var job := x.h.accepted[m.f.id];
            && Leads(c, ch, x, LoadRow(m, false), z, Idle, n) && Gone(x, z, m, ch.now)
            && z.r.dlq == x.r.dlq && z.r.retry == x.r.retry
            && var out := Output(c.runners[TypeName(job.jobType)], job.plain, PoliciesOf(x.p, job.tenant));
               Recorded(x, z, m.f.id, Row(Completed, out, job.tenant))
  {
    ReachableStart(c, states, acts, i, w);
    var x, m := states[i].x, states[i].workers[w].pc.m;
    z, n := HandlesAccepted(c, ch, x, m, x.h.accepted[m.f.id]);
  }
}
