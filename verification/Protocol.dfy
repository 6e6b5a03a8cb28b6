/**
  The job protocol as a step relation: workers claim stream entries, checkpoint, record,
  purge and acknowledge, while other workers steal their entries and crashes fall anywhere.

  One Redis command, one Redis script and one SQL statement or transaction is one atomic step.
  A worker's program counter names the next effect it will perform; `Crash` sends it back to
  `Idle` with nothing claimed, which also stands for every error return that ends the process.

  Sealing is symbolic: `Sealed(k, p)` opens under `k` and under nothing else.
 */
module Protocol {
  import opened Basics

  type JobId = string
  type Tenant = string
  type Key = nat
  type Time = int
  type EntryId = nat
  type WorkerId = nat

  datatype Value = Text(raw: string) | Sealed(key: Key, plain: string)

  function Open(k: Key, v: Value): Option<string> {
    if v.Sealed? && v.key == k then Some(v.plain) else None
  }

  /** The fields of a stream entry; an absent field reads as "". */
  datatype Fields = Fields(id: JobId, tenant: Tenant, jobType: string, input: Value)

  /** What the dead-letter stream keeps of an entry. */
  datatype DeadLetter = DeadLetter(id: JobId, tenant: Tenant, jobType: string)

  datatype Msg = Msg(entry: EntryId, f: Fields)

  datatype JobState = Completed | Failed
  datatype Row = Row(state: JobState, body: string, tenant: Tenant)
  datatype KeyRow = Live(key: Key) | Destroyed(at: Time)
  datatype Record = PurgeReceipt(job: JobId, at: Time) | Other(kind: string)

  /** A job as `Add` accepted it. */
  datatype Job = Job(tenant: Tenant, jobType: string, plain: string, key: Key)

  /** A two-step runner: `first` is checkpointed, `rest` finishes. `first` is None when the
      input is rejected. A stored tenant policy replaces both by `underPolicy`. */
  datatype Runner = Runner(
    usesPolicy: bool,
    first: string -> Option<string>,
    rest: string -> string,
    underPolicy: (string, string) -> string)

  /** `hooks` lets the `Fail` hook fire; `exclusive` lets at most one worker hold an entry. */
  datatype Config = Config(runners: map<string, Runner>, checksum: string -> string, hooks: bool, exclusive: bool)

  /** Why the purge runs, which decides what follows it. */
  datatype Via = Journaled | Success | Bury | FailHook(seen: int)

  datatype PC =
    | Idle
    | LoadRow(m: Msg, fail: bool)
    | LoadMem(m: Msg, fail: bool)
    | MemInsert(m: Msg, fail: bool, sealed: Value)
    | MemSelect(m: Msg, fail: bool, sealed: Value)
    | LoadKey(m: Msg, fail: bool, saved: Option<string>)
    | Running(m: Msg, fail: bool, saved: Option<string>, plain: string)
    | SaveInsert(m: Msg, fail: bool, partial: string)
    | SaveSelect(m: Msg, fail: bool, partial: string)
    | SaveSet(m: Msg, fail: bool, partial: string, sealed: Value)
    | Peek(m: Msg, out: string)
    | Commit(m: Msg, row: Row, via: Via)
    | PurgeGet(m: Msg, via: Via)
    | PurgeInsert(m: Msg, at: Time, via: Via)
    | PurgeGetAgain(m: Msg, via: Via)
    | PurgeDestroy(m: Msg, at: Time, via: Via)
    | PurgeDrop(m: Msg, via: Via)
    | Finish(m: Msg)
    | SettleForced(m: Msg)
    | Settle(m: Msg, seen: int)

  datatype Worker = Worker(batch: seq<Msg>, pc: PC)

  /** History that no step reads: what `Add` accepted, the newest stream entry of each job
      and how often it was requeued. */
  datatype History = History(
    accepted: map<JobId, Job>,
    home: map<JobId, EntryId>,
    requeues: map<JobId, nat>)

  datatype Redis = Redis(
    stream: map<EntryId, Fields>,
    nextEntry: EntryId,
    pending: set<EntryId>,
    dlq: seq<DeadLetter>,
    retry: map<JobId, int>,
    mem: map<JobId, Value>)

  datatype Postgres = Postgres(
    keys: map<JobId, KeyRow>,
    rows: map<JobId, Row>,
    receipts: map<JobId, Time>,
    ledger: map<Tenant, seq<Record>>,
    policies: map<Tenant, seq<string>>)

  datatype Stores = Stores(h: History, r: Redis, p: Postgres)

  datatype State = State(x: Stores, workers: map<WorkerId, Worker>)

  function FieldsOf(id: JobId, job: Job): Fields {
    Fields(id, job.tenant, job.jobType, Sealed(job.key, job.plain))
  }

  function DeadOf(f: Fields): DeadLetter { DeadLetter(f.id, f.tenant, f.jobType) }

  function LedgerOf(pg: Postgres, t: Tenant): seq<Record> { if t in pg.ledger then pg.ledger[t] else [] }

  function PoliciesOf(pg: Postgres, t: Tenant): seq<string> { if t in pg.policies then pg.policies[t] else [] }

  function RetryOf(r: Redis, j: JobId): int { if j in r.retry then r.retry[j] else 0 }

  /** What `handle` would get by loading the checkpoint hash and opening it. */
  function LoadCheckpoint(x: Stores, j: JobId): Option<string> {
    if j in x.r.mem && j in x.p.keys && x.p.keys[j].Live? then Open(x.p.keys[j].key, x.r.mem[j]) else None
  }

  /** First statement of the key store's Ensure: insert unless a row exists. */
  function EnsureInsert(keys: map<JobId, KeyRow>, j: JobId, material: Key): map<JobId, KeyRow> {
    if j in keys then keys else keys[j := Live(material)]
  }

  function Destroy(keys: map<JobId, KeyRow>, j: JobId, at: Time): map<JobId, KeyRow> {
    if j in keys && keys[j].Live? then keys[j := Destroyed(at)] else keys
  }

  function Append(pg: Postgres, t: Tenant, r: Record): map<Tenant, seq<Record>> {
    pg.ledger[t := LedgerOf(pg, t) + [r]]
  }

  function FailRow(m: Msg, body: string): Row { Row(Failed, body, m.f.tenant) }

  /** After the runner returned `out`. */
  function Computed(m: Msg, fail: bool, out: string): PC {
    if fail then Peek(m, out) else Commit(m, Row(Completed, out, m.f.tenant), Success)
  }

  function AfterPurge(m: Msg, via: Via): PC {
    match via
    case Journaled => Finish(m)
    case Success => Finish(m)
    case Bury => SettleForced(m)
    case FailHook(seen) => Settle(m, seen)
  }

  /** Acknowledge and delete an entry. */
  function Drop(r: Redis, e: EntryId): Redis {
    r.(stream := r.stream - {e}, pending := r.pending - {e})
  }

  /** The settle script's burial branch. */
  function Buried(r: Redis, m: Msg): Redis {
    Drop(r, m.entry).(dlq := r.dlq + [DeadOf(m.f)], retry := r.retry - {m.f.id})
  }

  /** The settle script's retry branch: requeue the claimed fields under a new entry. */
  function Requeued(r: Redis, m: Msg, n: int): Redis {
    r.(stream := (r.stream - {m.entry})[r.nextEntry := m.f],
       nextEntry := r.nextEntry + 1,
       pending := r.pending - {m.entry},
       retry := r.retry[m.f.id := n])
  }

  function NoteRequeue(h: History, j: JobId, e: EntryId): History {
    h.(home := h.home[j := e], requeues := h.requeues[j := 1 + if j in h.requeues then h.requeues[j] else 0])
  }

  /** What the environment decides during a step: the clock, the random key material and
      whether loading the tenant policy fails. */
  datatype Choice = Choice(now: Time, material: Key, policyFails: bool)

  /** What a step leaves behind: new stores and the next program counter, or a dead process. */
  datatype Outcome = Go(x: Stores, pc: PC) | Dead

  function WithMem(x: Stores, mem: map<JobId, Value>): Stores { x.(r := x.r.(mem := mem)) }
  function WithKeys(x: Stores, keys: map<JobId, KeyRow>): Stores { x.(p := x.p.(keys := keys)) }
  function WithRow(x: Stores, j: JobId, row: Row): Stores { x.(p := x.p.(rows := x.p.rows[j := row])) }
  function WithRedis(x: Stores, r: Redis): Stores { x.(r := r) }

  /** The receipt and its ledger row, inserted in one transaction. */
  function WithReceipt(x: Stores, t: Tenant, j: JobId, at: Time): Stores {
    x.(p := x.p.(receipts := x.p.receipts[j := at], ledger := Append(x.p, t, PurgeReceipt(j, at))))
  }

  function WithRequeue(x: Stores, m: Msg, n: int): Stores {
    Stores(NoteRequeue(x.h, m.f.id, x.r.nextEntry), Requeued(x.r, m, n), x.p)
  }

  function WithJob(x: Stores, j: JobId, job: Job): Stores {
    Stores(History(x.h.accepted[j := job], x.h.home[j := x.r.nextEntry], x.h.requeues[j := 0]),
           x.r.(stream := x.r.stream[x.r.nextEntry := FieldsOf(j, job)], nextEntry := x.r.nextEntry + 1),
           x.p)
  }

  /** The effect `handle` performs at a program counter. */
  function Effect(c: Config, x: Stores, pc: PC, ch: Choice): Outcome {
    match pc
    case Idle => Go(x, Idle)
    case LoadRow(m, fail) => Go(x, if m.f.id in x.p.rows then PurgeGet(m, Journaled) else LoadMem(m, fail))
    case LoadMem(m, fail) =>
      Go(x, if m.f.id in x.r.mem then MemInsert(m, fail, x.r.mem[m.f.id]) else LoadKey(m, fail, None))
    case MemInsert(m, fail, sealed) =>
      Go(WithKeys(x, EnsureInsert(x.p.keys, m.f.id, ch.material)), MemSelect(m, fail, sealed))
    case MemSelect(m, fail, sealed) => OpenCheckpoint(x, m, fail, sealed)
    case LoadKey(m, fail, saved) => OpenInput(c, x, m, fail, saved)
    case Running(m, fail, saved, plain) => Run(c, x, ch, m, fail, saved, plain)
    case SaveInsert(m, fail, partial) =>
      Go(WithKeys(x, EnsureInsert(x.p.keys, m.f.id, ch.material)), SaveSelect(m, fail, partial))
    case SaveSelect(m, fail, partial) =>
      if m.f.id !in x.p.keys || x.p.keys[m.f.id].Destroyed? then Dead
      else Go(x, SaveSet(m, fail, partial, Sealed(x.p.keys[m.f.id].key, partial)))
    case SaveSet(m, fail, partial, sealed) =>
      if TypeName(m.f.jobType) !in c.runners then Dead
      else Go(WithMem(x, x.r.mem[m.f.id := sealed]), Computed(m, fail, c.runners[TypeName(m.f.jobType)].rest(partial)))
    case Peek(m, out) =>
      Go(x, if RetryOf(x.r, m.f.id) >= 2 then Commit(m, FailRow(m, out), FailHook(RetryOf(x.r, m.f.id)))
            else Settle(m, RetryOf(x.r, m.f.id)))
    case Commit(m, row, via) => RecordOnce(c, x, m, row, via)
    case PurgeGet(m, via) =>
      Go(x, if m.f.id in x.p.receipts then PurgeDestroy(m, x.p.receipts[m.f.id], via) else PurgeInsert(m, ch.now, via))
    case PurgeInsert(m, at, via) =>
      if m.f.id in x.p.receipts then Go(x, PurgeGetAgain(m, via))
      else Go(WithReceipt(x, m.f.tenant, m.f.id, at), PurgeDestroy(m, at, via))
    case PurgeGetAgain(m, via) =>
      if m.f.id in x.p.receipts then Go(x, PurgeDestroy(m, x.p.receipts[m.f.id], via)) else Dead
    case PurgeDestroy(m, at, via) => Go(WithKeys(x, Destroy(x.p.keys, m.f.id, at)), PurgeDrop(m, via))
    case PurgeDrop(m, via) => Go(WithMem(x, x.r.mem - {m.f.id}), AfterPurge(m, via))
    case Finish(m) => Go(WithRedis(x, Drop(x.r, m.entry)), Idle)
    case SettleForced(m) => Go(WithRedis(x, Buried(x.r, m)), Idle)
    case Settle(m, seen) => SettleScript(x, m)
  }

  function OpenCheckpoint(x: Stores, m: Msg, fail: bool, sealed: Value): Outcome {
    if m.f.id !in x.p.keys || x.p.keys[m.f.id].Destroyed? then Dead else
    var plain := Open(x.p.keys[m.f.id].key, sealed);
    if plain.None? then Dead else Go(x, LoadKey(m, fail, plain))
  }

  function OpenInput(c: Config, x: Stores, m: Msg, fail: bool, saved: Option<string>): Outcome {
    if TypeName(m.f.jobType) !in c.runners then Go(x, Commit(m, FailRow(m, "unknown job_type"), Bury))
    else if m.f.id !in x.p.keys then Go(x, Commit(m, FailRow(m, "input key missing"), Bury))
    else if x.p.keys[m.f.id].Destroyed? then Dead
    else match Open(x.p.keys[m.f.id].key, m.f.input)
      case None => Go(x, Commit(m, FailRow(m, "input is not sealed"), Bury))
      case Some(plain) => Go(x, Running(m, fail, saved, plain))
  }

  function Run(c: Config, x: Stores, ch: Choice, m: Msg, fail: bool, saved: Option<string>, plain: string): Outcome {
    if TypeName(m.f.jobType) !in c.runners then Dead else
    var runner := c.runners[TypeName(m.f.jobType)];
    var first := runner.first(plain);
    var docs := PoliciesOf(x.p, m.f.tenant);
    if first.None? || (runner.usesPolicy && ch.policyFails) then Go(x, Commit(m, FailRow(m, "runner failed"), Bury))
    else if runner.usesPolicy && docs != [] then Go(x, Computed(m, fail, runner.underPolicy(plain, docs[|docs| - 1])))
    else if saved.Some? then Go(x, Computed(m, fail, runner.rest(saved.value)))
    else Go(x, SaveInsert(m, fail, first.value))
  }

  /** Record inserts once and afterwards accepts only the same state and checksum. */
  function RecordOnce(c: Config, x: Stores, m: Msg, row: Row, via: Via): Outcome {
    if m.f.id !in x.p.rows then Go(WithRow(x, m.f.id, row), PurgeGet(m, via))
    else if x.p.rows[m.f.id].state == row.state && c.checksum(x.p.rows[m.f.id].body) == c.checksum(row.body)
    then Go(x, PurgeGet(m, via))
    else Dead
  }

  /** The settle script without the force flag. */
  function SettleScript(x: Stores, m: Msg): Outcome {
    var stored := RetryOf(x.r, m.f.id);
    var n := if stored >= 3 then stored else stored + 1;
    Go(if n < 3 then WithRequeue(x, m, n) else WithRedis(x, Buried(x.r, m)), Idle)
  }

  function Entries(ms: seq<Msg>): set<EntryId> { set i | 0 <= i < |ms| :: ms[i].entry }

  /** The entries a worker has claimed and not yet let go. */
  function Held(k: Worker): set<EntryId> { Entries(k.batch) + if k.pc.Idle? then {} else {k.pc.m.entry} }

  datatype Action =
    | Join(w: WorkerId)
    | AddKey(j: JobId, material: Key)
    | AddEntry(j: JobId, job: Job)
    | SetPolicy(t: Tenant, doc: string)
    | AppendOther(t: Tenant, kind: string)
    | Claim(w: WorkerId, ms: seq<Msg>, stolen: bool)
    | Dispatch(w: WorkerId, fail: bool)
    | Work(w: WorkerId, ch: Choice)
    | Crash(w: WorkerId)

  ghost predicate Enabled(c: Config, s: State, a: Action) {
    match a
    case Join(w) => w !in s.workers
    // Add: the key row is ensured first; job ids are fresh, as the API draws them.
    case AddKey(j, material) => j !in s.x.h.accepted
    case AddEntry(j, job) =>
      && j != "" && j !in s.x.h.accepted && job.tenant != ""
      && j in s.x.p.keys && s.x.p.keys[j] == Live(job.key)
    case SetPolicy(t, doc) => true
    case AppendOther(t, kind) => true
    // XREADGROUP delivers entries not yet pending, XAUTOCLAIM pending ones.
    case Claim(w, ms, stolen) =>
      && w in s.workers && s.workers[w] == Worker([], Idle)
      && (forall i :: 0 <= i < |ms| ==>
            && ms[i].entry in s.x.r.stream && ms[i].f == s.x.r.stream[ms[i].entry]
            && (ms[i].entry in s.x.r.pending) == stolen)
      && (forall i, k :: 0 <= i < k < |ms| ==> ms[i].entry != ms[k].entry)
      && (c.exclusive ==>
            forall v :: v in s.workers ==> Held(s.workers[v]) !! Entries(ms))
    case Dispatch(w, fail) =>
      w in s.workers && s.workers[w].pc.Idle? && s.workers[w].batch != [] && (fail ==> c.hooks)
    case Work(w, ch) => w in s.workers
    case Crash(w) => w in s.workers
  }

  /** The process dies by restarting with nothing claimed. */
  function After(s: State, w: WorkerId, o: Outcome): State
    requires w in s.workers
  {
    match o
    case Go(x, pc) => State(x, s.workers[w := s.workers[w].(pc := pc)])
    case Dead => s.(workers := s.workers[w := Worker([], Idle)])
  }

  function Apply(c: Config, s: State, a: Action): State
    requires Enabled(c, s, a)
  {
    match a
    case Join(w) => s.(workers := s.workers[w := Worker([], Idle)])
    case AddKey(j, material) => s.(x := WithKeys(s.x, EnsureInsert(s.x.p.keys, j, material)))
    case AddEntry(j, job) => s.(x := WithJob(s.x, j, job))
    case SetPolicy(t, doc) =>
      s.(x := s.x.(p := s.x.p.(policies := s.x.p.policies[t := PoliciesOf(s.x.p, t) + [doc]],
                               ledger := Append(s.x.p, t, Other("policy_changed")))))
    case AppendOther(t, kind) => s.(x := s.x.(p := s.x.p.(ledger := Append(s.x.p, t, Other(kind)))))
    case Claim(w, ms, stolen) =>
      State(WithRedis(s.x, s.x.r.(pending := s.x.r.pending + Entries(ms))), s.workers[w := Worker(ms, Idle)])
    case Dispatch(w, fail) =>
      s.(workers := s.workers[w := Worker(s.workers[w].batch[1..], LoadRow(s.workers[w].batch[0], fail))])
    case Work(w, ch) => After(s, w, Effect(c, s.x, s.workers[w].pc, ch))
    case Crash(w) => After(s, w, Dead)
  }

  ghost predicate Init(s: State) {
    s == State(Stores(History(map[], map[], map[]), Redis(map[], 0, {}, [], map[], map[]),
                      Postgres(map[], map[], map[], map[], map[])), map[])
  }

  ghost predicate Takes(c: Config, s: State, a: Action, s': State) { Enabled(c, s, a) && s' == Apply(c, s, a) }

  /** A run: its states and the actions between them. */
  ghost predicate IsRun(c: Config, states: seq<State>, acts: seq<Action>) {
    && |states| == |acts| + 1
    && Init(states[0])
    && forall i :: 0 <= i < |acts| ==> Takes(c, states[i], acts[i], states[i + 1])
  }
}
