/** The journal of finished jobs: the two-table transactional store answers as the in-memory
    one does, keeps its tables together and never changes a row. */
module Journal {
  import opened Basics

  type DurableId = string
  type Time = int
  type Output = map<string, string>

  datatype JobState = Created | Running | Completed | Failed
  datatype Transition = Transition(from: JobState, to: JobState, at: Time)

  datatype JobResult = JobResult(
    id: string, tenant: string, jobType: string, result: Output, history: seq<Transition>,
    signature: string, signingKeyId: string)

  datatype StoredJob = StoredJob(
    id: DurableId, jobType: string, state: JobState, checksum: string, created: Time, completed: Time)

  datatype StoredOutput = StoredOutput(state: JobState, body: string, tenant: string)

  datatype Error = NotTerminal | MissingPickup | Conflict | UnknownJob | MissingTenant | Database
  datatype Result<+T> = Ok(value: T) | Err(error: Error)

  /** The opaque parts: the derived id, the durable encoding, its hash, and the microsecond
      precision of a timestamp column. */
  datatype Env = Env(
    durable: string -> DurableId, bodyOf: Output -> string, hash: string -> string, micros: Time -> Time)

  // ----- what a result says

  predicate IsPickup(step: Transition) { step.from == Created && step.to == Running }

  function FirstPickup(steps: seq<Transition>): Option<Time> {
    if steps == [] then None else if IsPickup(steps[0]) then Some(steps[0].at) else FirstPickup(steps[1..])
  }

  function Terminal(env: Env, r: JobResult): Result<StoredJob> {
    if r.history == [] then Err(NotTerminal) else
    var last := r.history[|r.history| - 1];
    if last.to != Completed && last.to != Failed then Err(NotTerminal)
    else match FirstPickup(r.history)
      case None => Err(MissingPickup)
      case Some(created) =>
        Ok(StoredJob(env.durable(r.id), TypeName(r.jobType), last.to, env.hash(env.bodyOf(r.result)), created, last.at))
  }

  /** The pickup is the first of its kind in the history. */
  lemma {:induction false} FirstPickupIs(steps: seq<Transition>, k: nat)
    requires k <= |steps| && forall i :: 0 <= i < k ==> !IsPickup(steps[i])
    ensures k < |steps| && IsPickup(steps[k]) ==> FirstPickup(steps) == Some(steps[k].at)
    ensures k == |steps| ==> FirstPickup(steps) == None
  {
    if k > 0 { FirstPickupIs(steps[1..], k - 1); }
  }

  method ParseTerminal(env: Env, r: JobResult) returns (row: Result<StoredJob>)
    ensures row == Terminal(env, r)
  {
    var steps := r.history;
    if |steps| == 0 { return Err(NotTerminal); }
    var last := steps[|steps| - 1];
    if last.to != Completed && last.to != Failed { return Err(NotTerminal); }
    var created, foundPickup, i := 0, false, 0;
    while i < |steps|
      invariant 0 <= i <= |steps| && !foundPickup && forall k :: 0 <= k < i ==> !IsPickup(steps[k])
    {
      if steps[i].from == Created && steps[i].to == Running {
        created, foundPickup := steps[i].at, true;
        break;
      }
      i := i + 1;
    }
    FirstPickupIs(steps, i);
    if !foundPickup { return Err(MissingPickup); }
    var jobType := r.jobType;
    if jobType == "" { jobType := "redact"; }
    return Ok(StoredJob(env.durable(r.id), jobType, last.to, env.hash(env.bodyOf(r.result)), created, last.at));
  }

  predicate AcceptExisting(checksum: string, state: JobState, incoming: StoredJob) {
    checksum == incoming.checksum && state == incoming.state
  }

  // ----- the two journals as functions of their tables

  datatype Answer = Done | Found(row: StoredJob) | Refused(error: Error)

  datatype Memory = Memory(rows: map<DurableId, StoredJob>, outputs: map<string, StoredOutput>)

  datatype JobRow = JobRow(row: StoredJob, tenant: string, signature: Option<string>, signingKeyId: Option<string>)

  datatype Tables = Tables(jobs: map<DurableId, JobRow>, outputs: map<string, StoredOutput>)

  function OutputRow(env: Env, r: JobResult, row: StoredJob): StoredOutput {
    StoredOutput(row.state, env.bodyOf(r.result), r.tenant)
  }

  function MemRecord(env: Env, m: Memory, r: JobResult): (Memory, Answer) {
    match Terminal(env, r)
    case Err(e) => (m, Refused(e))
    case Ok(row) =>
      if row.id !in m.rows then (Memory(m.rows[row.id := row], m.outputs[r.id := OutputRow(env, r, row)]), Done)
      else (m, if AcceptExisting(m.rows[row.id].checksum, m.rows[row.id].state, row) then Done else Refused(Conflict))
  }

  function MemLoad(env: Env, m: Memory, id: string): Answer {
    if env.durable(id) in m.rows then Found(m.rows[env.durable(id)]) else Refused(UnknownJob)
  }

  function Rounded(env: Env, row: StoredJob): StoredJob {
    row.(created := env.micros(row.created), completed := env.micros(row.completed))
  }

  function NonEmpty(s: string): Option<string> { if s == "" then None else Some(s) }

  function JobRowOf(env: Env, r: JobResult, row: StoredJob): JobRow {
    JobRow(Rounded(env, row), r.tenant, NonEmpty(r.signature), NonEmpty(r.signingKeyId))
  }

  /** Insert unless the key is taken, as ON CONFLICT DO NOTHING does. */
  function InsertNew<V>(m: map<string, V>, k: string, v: V): map<string, V> { if k in m then m else m[k := v] }

  function PgRecord(env: Env, t: Tables, r: JobResult): (Tables, Answer) {
    if r.tenant == "" then (t, Refused(MissingTenant)) else
    match Terminal(env, r)
    case Err(e) => (t, Refused(e))
    case Ok(row) =>
      var outputs := InsertNew(t.outputs, r.id, OutputRow(env, r, row));
      if row.id !in t.jobs then (Tables(t.jobs[row.id := JobRowOf(env, r, row)], outputs), Done)
      else if AcceptExisting(t.jobs[row.id].row.checksum, t.jobs[row.id].row.state, row)
      then (Tables(t.jobs, outputs), Done)
      else (t, Refused(Conflict))
  }

  function PgLoad(env: Env, t: Tables, id: string): Answer {
    if env.durable(id) in t.jobs then Found(t.jobs[env.durable(id)].row) else Refused(UnknownJob)
  }

  class MemoryJournal {
    var rows: map<DurableId, StoredJob>
    var outputs: map<string, StoredOutput>

    ghost function View(): Memory reads this { Memory(rows, outputs) }

    constructor ()
      ensures View() == Memory(map[], map[])
    {
      rows, outputs := map[], map[];
    }

    method Record(env: Env, r: JobResult) returns (a: Answer)
      modifies this
      ensures (View(), a) == MemRecord(env, old(View()), r)
    {
      var parsed := ParseTerminal(env, r);
      if parsed.Err? { return Refused(parsed.error); }
      var row := parsed.value;
      if row.id !in rows {
        outputs := outputs[r.id := StoredOutput(row.state, env.bodyOf(r.result), r.tenant)];
        rows := rows[row.id := row];
        return Done;
      }
      return if AcceptExisting(rows[row.id].checksum, rows[row.id].state, row) then Done else Refused(Conflict);
    }

    method Load(env: Env, id: string) returns (a: Answer)
      ensures a == MemLoad(env, View(), id)
    {
      if env.durable(id) !in rows { return Refused(UnknownJob); }
      return Found(rows[env.durable(id)]);
    }
  }

  /** Where the database gives up during a call. */
  datatype Fault = NoFault | AtBegin | AtOutputs | AtJobs | AtSelect | AtCommit

  class PgJournal {
    var jobs: map<DurableId, JobRow>
    var outputs: map<string, StoredOutput>

    ghost function View(): Tables reads this { Tables(jobs, outputs) }

    constructor ()
      ensures View() == Tables(map[], map[])
    {
      jobs, outputs := map[], map[];
    }

    /** The statements of one transaction; every early return rolls it back. */
    method Record(env: Env, r: JobResult, fault: Fault) returns (a: Answer)
      modifies this
      ensures a == Refused(Database) ==> View() == old(View()) && !fault.NoFault?
      ensures a != Refused(Database) ==> (View(), a) == PgRecord(env, old(View()), r)
    {
      if r.tenant == "" { return Refused(MissingTenant); }
      var parsed := ParseTerminal(env, r);
      if parsed.Err? { return Refused(parsed.error); }
      var row := parsed.value;
      if fault.AtBegin? { return Refused(Database); }
      var wasJobs, wasOutputs := jobs, outputs;
      if fault.AtOutputs? { return Refused(Database); }
      outputs := InsertNew(outputs, r.id, StoredOutput(row.state, env.bodyOf(r.result), r.tenant));
      if fault.AtJobs? {
        jobs, outputs := wasJobs, wasOutputs;
        return Refused(Database);
      }
      var affected := if row.id in jobs then 0 else 1;
      jobs := InsertNew(jobs, row.id, JobRowOf(env, r, row));
      if affected != 1 {
        if fault.AtSelect? {
          jobs, outputs := wasJobs, wasOutputs;
          return Refused(Database);
        }
        var existing := jobs[row.id].row;
        if !AcceptExisting(existing.checksum, existing.state, row) {
          jobs, outputs := wasJobs, wasOutputs;
          return Refused(Conflict);
        }
      }
      if fault.AtCommit? {
        jobs, outputs := wasJobs, wasOutputs;
        return Refused(Database);
      }
      return Done;
    }

    method Load(env: Env, id: string) returns (a: Answer)
      ensures a == PgLoad(env, View(), id)
    {
      if env.durable(id) !in jobs { return Refused(UnknownJob); }
      return Found(jobs[env.durable(id)].row);
    }
  }

  // ----- sequences of calls

  /** `Aborted` is a Record that the database gave up on; the memory journal never sees it. */
  datatype Call = Record(r: JobResult) | Load(id: string) | Aborted(r: JobResult)

  function MemStep(env: Env, m: Memory, c: Call): (Memory, Answer) {
    match c
    case Record(r) => MemRecord(env, m, r)
    case Load(id) => (m, MemLoad(env, m, id))
    case Aborted(r) => (m, Refused(Database))
  }

  function PgStep(env: Env, t: Tables, c: Call): (Tables, Answer) {
    match c
    case Record(r) => PgRecord(env, t, r)
    case Load(id) => (t, PgLoad(env, t, id))
    case Aborted(r) => (t, Refused(Database))
  }

  function MemRun(env: Env, m: Memory, calls: seq<Call>): (seq<Answer>, Memory)
    decreases |calls|
  {
    if calls == [] then ([], m)
    else
      var (m', a) := MemStep(env, m, calls[0]);
      var (rest, last) := MemRun(env, m', calls[1..]);
      ([a] + rest, last)
  }

  function PgRun(env: Env, t: Tables, calls: seq<Call>): (seq<Answer>, Tables)
    decreases |calls|
  {
    if calls == [] then ([], t)
    else
      var (t', a) := PgStep(env, t, calls[0]);
      var (rest, last) := PgRun(env, t', calls[1..]);
      ([a] + rest, last)
  }

  /** The same answer, with timestamps as a column returns them. */
  function AsStored(env: Env, a: Answer): Answer { if a.Found? then Found(Rounded(env, a.row)) else a }

  ghost predicate SameAnswers(env: Env, pg: seq<Answer>, mem: seq<Answer>) {
    |pg| == |mem| && forall i :: 0 <= i < |pg| ==> pg[i] == AsStored(env, mem[i])
  }

  function IdOf(c: Call): string { if c.Load? then c.id else c.r.id }

  /** The job ids in play, on which the derived ids are distinct. */
  ghost predicate Within(calls: seq<Call>, ids: set<string>) {
    forall i :: 0 <= i < |calls| ==> IdOf(calls[i]) in ids
  }

  ghost predicate Distinct(env: Env, ids: set<string>) {
    forall a, b :: a in ids && b in ids && env.durable(a) == env.durable(b) ==> a == b
  }

  ghost predicate HasTenant(c: Call) { c.Record? ==> c.r.tenant != "" }

  ghost predicate AllTenants(calls: seq<Call>) { forall i :: 0 <= i < |calls| ==> HasTenant(calls[i]) }

  /** Outputs and job rows exist together. */
  ghost predicate Paired(env: Env, ids: set<string>, t: Tables) {
    && (forall j :: j in t.outputs ==> j in ids)
    && (forall j :: j in ids ==> (j in t.outputs <==> env.durable(j) in t.jobs))
    && (forall d :: d in t.jobs ==> exists j :: j in t.outputs && env.durable(j) == d)
  }

  ghost predicate Related(env: Env, m: Memory, t: Tables) {
    && m.rows.Keys == t.jobs.Keys
    && (forall d :: d in t.jobs ==> t.jobs[d].row == Rounded(env, m.rows[d]))
    && m.outputs == t.outputs
  }

  /** The tables with the two rows of one more job. */
  ghost function Added(env: Env, t: Tables, r: JobResult, row: StoredJob): Tables {
    Tables(t.jobs[row.id := JobRowOf(env, r, row)], t.outputs[r.id := OutputRow(env, r, row)])
  }

  /** While rows come in pairs, a call adds the pair of a new job or nothing. */
  lemma AddsOneOrNone(env: Env, ids: set<string>, t: Tables, c: Call)
    requires IdOf(c) in ids && Paired(env, ids, t)
    ensures var t' := PgStep(env, t, c).0;
            t' == t || (c.Record? && c.r.tenant != "" && c.r.id !in t.outputs && env.durable(c.r.id) !in t.jobs &&
                        Terminal(env, c.r).Ok? && t' == Added(env, t, c.r, Terminal(env, c.r).value))
  {}

  lemma AddedPaired(env: Env, ids: set<string>, t: Tables, r: JobResult)
    requires Distinct(env, ids) && r.id in ids && Paired(env, ids, t) && Terminal(env, r).Ok?
    requires r.id !in t.outputs && env.durable(r.id) !in t.jobs
    ensures Paired(env, ids, Added(env, t, r, Terminal(env, r).value))
  {
    var t' := Added(env, t, r, Terminal(env, r).value);
    forall d | d in t'.jobs ensures exists j :: j in t'.outputs && env.durable(j) == d {
      if d in t.jobs {
        var j :| j in t.outputs && env.durable(j) == d;
        assert j in t'.outputs;
      } else {
        assert r.id in t'.outputs;
      }
    }
  }

  lemma PgKeepsPaired(env: Env, ids: set<string>, t: Tables, c: Call)
    requires Distinct(env, ids) && IdOf(c) in ids && Paired(env, ids, t)
    ensures Paired(env, ids, PgStep(env, t, c).0)
  {
    AddsOneOrNone(env, ids, t, c);
    if PgStep(env, t, c).0 != t { AddedPaired(env, ids, t, c.r); }
  }

  lemma AddedRelated(env: Env, m: Memory, t: Tables, r: JobResult, row: StoredJob)
    requires Related(env, m, t)
    ensures var m' := Memory(m.rows[row.id := row], m.outputs[r.id := OutputRow(env, r, row)]);
            Related(env, m', Added(env, t, r, row))
  {}

  lemma RecordRelated(env: Env, ids: set<string>, m: Memory, t: Tables, r: JobResult)
    requires r.id in ids && Paired(env, ids, t) && Related(env, m, t) && r.tenant != ""
    ensures Related(env, MemRecord(env, m, r).0, PgRecord(env, t, r).0)
    ensures PgRecord(env, t, r).1 == MemRecord(env, m, r).1
  {
    var parsed := Terminal(env, r);
    if parsed.Ok? && parsed.value.id !in t.jobs {
      assert PgRecord(env, t, r).0 == Added(env, t, r, parsed.value);
      AddedRelated(env, m, t, r, parsed.value);
    }
  }

  lemma StepRelated(env: Env, ids: set<string>, m: Memory, t: Tables, c: Call)
    requires IdOf(c) in ids && Paired(env, ids, t) && Related(env, m, t) && HasTenant(c)
    ensures Related(env, MemStep(env, m, c).0, PgStep(env, t, c).0)
    ensures PgStep(env, t, c).1 == AsStored(env, MemStep(env, m, c).1)
  {
    if c.Record? { RecordRelated(env, ids, m, t, c.r); }
  }

  /** From related tables the answers agree exactly when every recorded result has a tenant. */
  lemma {:induction false} RunRelated(env: Env, ids: set<string>, m: Memory, t: Tables, calls: seq<Call>)
    requires Distinct(env, ids) && Within(calls, ids) && Paired(env, ids, t) && Related(env, m, t)
    ensures SameAnswers(env, PgRun(env, t, calls).0, MemRun(env, m, calls).0) <==> AllTenants(calls)
    ensures AllTenants(calls) ==> Related(env, MemRun(env, m, calls).1, PgRun(env, t, calls).1)
    decreases |calls|
  {
    if calls != [] {
      var c, rest := calls[0], calls[1..];
      var (m', a) := MemStep(env, m, c);
      var (t', b) := PgStep(env, t, c);
      var restMem, restPg := MemRun(env, m', rest).0, PgRun(env, t', rest).0;
      assert MemRun(env, m, calls).0 == [a] + restMem && PgRun(env, t, calls).0 == [b] + restPg;
      TenantsSplit(calls);
      if HasTenant(c) {
        StepRelated(env, ids, m, t, c);
        PgKeepsPaired(env, ids, t, c);
        RunRelated(env, ids, m', t', rest);
        AnswersSplit(env, b, restPg, a, restMem);
      } else {
        assert b == Refused(MissingTenant) && a != b;
        assert ([b] + restPg)[0] != AsStored(env, ([a] + restMem)[0]);
      }
    }
  }

  lemma TenantsSplit(calls: seq<Call>)
    requires calls != []
    ensures AllTenants(calls) <==> HasTenant(calls[0]) && AllTenants(calls[1..])
  {
    if HasTenant(calls[0]) && AllTenants(calls[1..]) {
      forall i | 0 <= i < |calls| ensures HasTenant(calls[i]) { if i > 0 { assert HasTenant(calls[1..][i - 1]); } }
    }
    if AllTenants(calls) {
      forall i | 0 <= i < |calls| - 1 ensures HasTenant(calls[1..][i]) { assert HasTenant(calls[i + 1]); }
    }
  }

  lemma AnswersSplit(env: Env, b: Answer, pg: seq<Answer>, a: Answer, mem: seq<Answer>)
    requires b == AsStored(env, a)
    ensures SameAnswers(env, [b] + pg, [a] + mem) <==> SameAnswers(env, pg, mem)
  {
    if SameAnswers(env, [b] + pg, [a] + mem) {
      forall i | 0 <= i < |pg| ensures pg[i] == AsStored(env, mem[i]) {
        assert ([b] + pg)[i + 1] == AsStored(env, ([a] + mem)[i + 1]);
      }
    }
  }

  /** Over every sequence of calls, with the database aborting any of them at any statement,
      the two journals give the same answers exactly when every recorded result has a tenant. */
  lemma JournalsAgree(env: Env, ids: set<string>, calls: seq<Call>)
    requires Distinct(env, ids) && Within(calls, ids)
    ensures SameAnswers(env, PgRun(env, Tables(map[], map[]), calls).0, MemRun(env, Memory(map[], map[]), calls).0)
            <==> AllTenants(calls)
  {
    RunRelated(env, ids, Memory(map[], map[]), Tables(map[], map[]), calls);
  }

  // ----- what the tables hold

  /** The signing key pair, symbolically: the message for a result and the signature check. */
  datatype Signer = Signer(
    message: (string, string, string) -> Option<string>, sign: string -> string,
    verify: (string, string) -> bool, keyId: string)

  ghost predicate Sound(s: Signer) { forall msg :: s.sign(msg) != "" && s.verify(msg, s.sign(msg)) }

  /** A signature that verifies for a job, its tenant and a body. */
  ghost predicate Signs(s: Signer, job: string, tenant: string, body: string, signature: Option<string>) {
    var message := s.message(job, tenant, body);
    message.Some? && signature.Some? && s.verify(message.value, signature.value)
  }

  method SignOutput(env: Env, s: Signer, r: JobResult) returns (signed: Option<JobResult>)
    requires Sound(s)
    ensures signed.None? <==> s.message(r.id, r.tenant, env.bodyOf(r.result)).None?
    ensures signed.Some? ==> signed.value == r.(signature := signed.value.signature, signingKeyId := s.keyId)
    ensures signed.Some? ==> Signs(s, r.id, r.tenant, env.bodyOf(r.result), NonEmpty(signed.value.signature))
  {
    var body := env.bodyOf(r.result);
    var msg := s.message(r.id, r.tenant, body);
    if msg.None? { return None; }
    return Some(r.(signature := s.sign(msg.value), signingKeyId := s.keyId));
  }

  ghost predicate SignedCall(env: Env, s: Signer, c: Call) {
    c.Record? ==> Signs(s, c.r.id, c.r.tenant, env.bodyOf(c.r.result), NonEmpty(c.r.signature))
  }

  /** The two rows of one job belong together. */
  ghost predicate RowsMatch(env: Env, s: Signer, t: Tables, j: string) {
    j in t.outputs && env.durable(j) in t.jobs &&
    var out, job := t.outputs[j], t.jobs[env.durable(j)];
    && job.row.id == env.durable(j)
    && job.row.checksum == env.hash(out.body)
    && job.row.state == out.state && (out.state == Completed || out.state == Failed)
    && job.tenant == out.tenant && out.tenant != ""
    && Signs(s, j, out.tenant, out.body, job.signature)
  }

  ghost predicate Coherent(env: Env, s: Signer, ids: set<string>, t: Tables) {
    Paired(env, ids, t) && forall j :: j in t.outputs ==> RowsMatch(env, s, t, j)
  }

  lemma AddedMatch(env: Env, s: Signer, ids: set<string>, t: Tables, r: JobResult)
    requires Distinct(env, ids) && r.id in ids && Coherent(env, s, ids, t) && Terminal(env, r).Ok?
    requires r.id !in t.outputs && env.durable(r.id) !in t.jobs && r.tenant != "" && SignedCall(env, s, Record(r))
    ensures forall j :: j in t.outputs || j == r.id ==> RowsMatch(env, s, Added(env, t, r, Terminal(env, r).value), j)
  {
    forall j | j in t.outputs ensures RowsMatch(env, s, Added(env, t, r, Terminal(env, r).value), j) {
      assert RowsMatch(env, s, t, j);
    }
  }

  lemma StepCoherent(env: Env, s: Signer, ids: set<string>, t: Tables, c: Call)
    requires Distinct(env, ids) && IdOf(c) in ids && SignedCall(env, s, c) && Coherent(env, s, ids, t)
    ensures Coherent(env, s, ids, PgStep(env, t, c).0)
  {
    PgKeepsPaired(env, ids, t, c);
    AddsOneOrNone(env, ids, t, c);
    if PgStep(env, t, c).0 != t { AddedMatch(env, s, ids, t, c.r); }
  }

  /** Rows are written once. */
  ghost predicate Extends(t: Tables, t': Tables) {
    && (forall d :: d in t.jobs ==> d in t'.jobs && t'.jobs[d] == t.jobs[d])
    && (forall j :: j in t.outputs ==> j in t'.outputs && t'.outputs[j] == t.outputs[j])
  }

  lemma StepExtends(env: Env, t: Tables, c: Call)
    ensures Extends(t, PgStep(env, t, c).0)
  {}

  /** After every sequence of signed calls the tables are coherent, and no row that ever
      existed has changed. */
  lemma {:induction false} TablesStayCoherent(env: Env, s: Signer, ids: set<string>, t: Tables, calls: seq<Call>)
    requires Distinct(env, ids) && Within(calls, ids) && Coherent(env, s, ids, t)
    requires forall i :: 0 <= i < |calls| ==> SignedCall(env, s, calls[i])
    ensures Coherent(env, s, ids, PgRun(env, t, calls).1) && Extends(t, PgRun(env, t, calls).1)
    decreases |calls|
  {
    RunExtends(env, t, calls);
    if calls != [] {
      StepCoherent(env, s, ids, t, calls[0]);
      TablesStayCoherent(env, s, ids, PgStep(env, t, calls[0]).0, calls[1..]);
    }
  }

  lemma {:induction false} RunExtends(env: Env, t: Tables, calls: seq<Call>)
    ensures Extends(t, PgRun(env, t, calls).1)
    decreases |calls|
  {
    if calls != [] {
      StepExtends(env, t, calls[0]);
      RunExtends(env, PgStep(env, t, calls[0]).0, calls[1..]);
    }
  }

  // ----- what a load means

  /** Reading back: once a result was recorded, every later load of its job finds a row with the
      result's state and the hash of its body. */
  lemma LoadReadsBack(env: Env, t: Tables, r: JobResult, calls: seq<Call>)
    requires PgRecord(env, t, r).1.Done?
    ensures var a := PgLoad(env, PgRun(env, PgRecord(env, t, r).0, calls).1, r.id);
            && a.Found? && a.row.checksum == env.hash(env.bodyOf(r.result))
            && a.row.state == r.history[|r.history| - 1].to
  {
    RunExtends(env, PgRecord(env, t, r).0, calls);
  }

  /** And the row of a new job holds its type, the time of its first pickup and the time of its
      last transition. */
  lemma LoadReadsTimes(env: Env, t: Tables, r: JobResult, calls: seq<Call>, k: nat)
    requires PgRecord(env, t, r).1.Done? && env.durable(r.id) !in t.jobs
    requires k < |r.history| && IsPickup(r.history[k]) && forall i :: 0 <= i < k ==> !IsPickup(r.history[i])
    ensures var a := PgLoad(env, PgRun(env, PgRecord(env, t, r).0, calls).1, r.id);
            && a.Found? && a.row.id == env.durable(r.id)
            && a.row.jobType == (if r.jobType == "" then "redact" else r.jobType)
            && a.row.created == env.micros(r.history[k].at)
            && a.row.completed == env.micros(r.history[|r.history| - 1].at)
  {
    FirstPickupIs(r.history, k);
    RunExtends(env, PgRecord(env, t, r).0, calls);
  }

  /** When a result is refused, and for which reason. */
  lemma TerminalMeans(env: Env, r: JobResult)
    ensures Terminal(env, r) == Err(NotTerminal) <==>
            r.history == [] || r.history[|r.history| - 1].to == Created || r.history[|r.history| - 1].to == Running
    ensures Terminal(env, r) == Err(MissingPickup) <==>
            && r.history != []
            && (r.history[|r.history| - 1].to == Completed || r.history[|r.history| - 1].to == Failed)
            && forall i :: 0 <= i < |r.history| ==> !(r.history[i].from == Created && r.history[i].to == Running)
    ensures Terminal(env, r).Err? ==> Terminal(env, r).error == NotTerminal || Terminal(env, r).error == MissingPickup
  {
    var k := 0;
    while k < |r.history| && !IsPickup(r.history[k])
      invariant k <= |r.history| && forall i :: 0 <= i < k ==> !IsPickup(r.history[i])
    {
      k := k + 1;
    }
    FirstPickupIs(r.history, k);
    assert k < |r.history| ==> IsPickup(r.history[k]);
  }

  /** Call k recorded a result under the derived id of the job. */
  ghost predicate RecordedAt(env: Env, calls: seq<Call>, answers: seq<Answer>, id: string, k: int) {
    && 0 <= k < |calls| && k < |answers| && calls[k].Record?
    && env.durable(calls[k].r.id) == env.durable(id) && answers[k].Done?
  }

  /** One call makes a job known exactly when it records it. */
  lemma StepFinds(env: Env, t: Tables, c: Call, id: string)
    ensures env.durable(id) in PgStep(env, t, c).0.jobs <==>
            env.durable(id) in t.jobs || RecordedAt(env, [c], [PgStep(env, t, c).1], id, 0)
  {}

  /** A load finds a row exactly when an earlier call recorded the job. */
  lemma {:induction false} LoadFindsRecorded(env: Env, t: Tables, calls: seq<Call>, id: string)
    ensures PgLoad(env, PgRun(env, t, calls).1, id).Found? <==>
            env.durable(id) in t.jobs || exists k :: RecordedAt(env, calls, PgRun(env, t, calls).0, id, k)
    decreases |calls|
  {
    if calls != [] {
      var (t', a) := PgStep(env, t, calls[0]);
      var answers, rest := PgRun(env, t, calls).0, PgRun(env, t', calls[1..]).0;
      assert answers == [a] + rest;
      StepFinds(env, t, calls[0], id);
      LoadFindsRecorded(env, t', calls[1..], id);
      RecordedLater(env, calls, answers, id);
    }
  }

  lemma RecordedLater(env: Env, calls: seq<Call>, answers: seq<Answer>, id: string)
    requires calls != [] && answers != []
    ensures (exists k :: RecordedAt(env, calls, answers, id, k)) <==>
            || RecordedAt(env, calls[..1], answers[..1], id, 0)
            || exists k :: RecordedAt(env, calls[1..], answers[1..], id, k)
  {
    if exists k :: RecordedAt(env, calls, answers, id, k) {
      var k :| RecordedAt(env, calls, answers, id, k);
      assert k > 0 ==> RecordedAt(env, calls[1..], answers[1..], id, k - 1);
    }
    if RecordedAt(env, calls[..1], answers[..1], id, 0) { assert RecordedAt(env, calls, answers, id, 0); }
    if exists k :: RecordedAt(env, calls[1..], answers[1..], id, k) {
      var k :| RecordedAt(env, calls[1..], answers[1..], id, k);
      assert RecordedAt(env, calls, answers, id, k + 1);
    }
  }
}
