/** Every effect keeps the stores' invariant and leads to a valid program counter. */
module ProtocolSteps {
  import opened Basics
  import opened Protocol
  import opened ProtocolInvariant
  import opened ProtocolStores

  ghost predicate OutcomeOK(c: Config, x: Stores, o: Outcome) {
    o.Go? ==> Kept(c, x, o.x) && PcOK(c, o.x, o.pc)
  }

  /** What a read-only step may use: its own claim and its own job. */
  ghost predicate Ready(c: Config, x: Stores, pc: PC) {
    !pc.Idle? && PcOK(c, x, pc) && JobOK(c, Docs(x, pc.m.f.id), ViewOf(x, pc.m.f.id))
  }

  ghost predicate ReadOnly(c: Config, x: Stores, o: Outcome) {
    o.Go? ==> o.x == x && PcOK(c, x, o.pc)
  }

  lemma ReadOnlyKept(c: Config, x: Stores, o: Outcome)
    requires Shared(c, x) && ReadOnly(c, x, o)
    ensures OutcomeOK(c, x, o)
  {}

  // ----- steps that only read

  lemma LoadStep(c: Config, x: Stores, pc: PC, ch: Choice)
    requires Ready(c, x, pc) && (pc.LoadRow? || pc.LoadMem?)
    ensures ReadOnly(c, x, Effect(c, x, pc, ch))
  {}

  lemma EnsureStep(c: Config, x: Stores, pc: PC, ch: Choice)
    requires Ready(c, x, pc) && (pc.MemInsert? || pc.SaveInsert?)
    ensures ReadOnly(c, x, Effect(c, x, pc, ch))
  {
    assert pc.m.f.id in x.p.keys;
  }

  lemma OpenCheckpointStep(c: Config, x: Stores, pc: PC, ch: Choice)
    requires Ready(c, x, pc) && pc.MemSelect?
    ensures ReadOnly(c, x, Effect(c, x, pc, ch))
  {}

  lemma OpenInputStep(c: Config, x: Stores, pc: PC, ch: Choice)
    requires Ready(c, x, pc) && pc.LoadKey?
    ensures ReadOnly(c, x, Effect(c, x, pc, ch))
  {}

  lemma SealStep(c: Config, x: Stores, pc: PC, ch: Choice)
    requires Ready(c, x, pc) && pc.SaveSelect?
    ensures ReadOnly(c, x, Effect(c, x, pc, ch))
  {}

  lemma PeekStep(c: Config, x: Stores, pc: PC, ch: Choice)
    requires Ready(c, x, pc) && pc.Peek?
    ensures ReadOnly(c, x, Effect(c, x, pc, ch))
  {}

  lemma ReceiptReadStep(c: Config, x: Stores, pc: PC, ch: Choice)
    requires Ready(c, x, pc) && (pc.PurgeGet? || pc.PurgeGetAgain?)
    ensures ReadOnly(c, x, Effect(c, x, pc, ch))
  {}

  lemma ComputedOK(c: Config, x: Stores, m: Msg, fail: bool, out: string)
    requires MsgOK(x, m) && (fail ==> c.hooks) && ValidOutput(c, Docs(x, m.f.id), x.h.accepted[m.f.id], out)
    ensures PcOK(c, x, Computed(m, fail, out))
  {}

  lemma PolicyRunStep(c: Config, x: Stores, pc: PC, ch: Choice, runner: Runner)
    requires Ready(c, x, pc) && pc.Running? && TypeName(pc.m.f.jobType) in c.runners
    requires runner == c.runners[TypeName(pc.m.f.jobType)] && runner.usesPolicy && runner.first(pc.plain).Some?
    requires Docs(x, pc.m.f.id) != []
    ensures var docs := Docs(x, pc.m.f.id);
            PcOK(c, x, Computed(pc.m, pc.fail, runner.underPolicy(pc.plain, docs[|docs| - 1])))
  {
    var docs := Docs(x, pc.m.f.id);
    assert docs[|docs| - 1] in docs;
    ComputedOK(c, x, pc.m, pc.fail, runner.underPolicy(pc.plain, docs[|docs| - 1]));
  }

  lemma ResumedRunStep(c: Config, x: Stores, pc: PC, ch: Choice, runner: Runner)
    requires Ready(c, x, pc) && pc.Running? && TypeName(pc.m.f.jobType) in c.runners
    requires runner == c.runners[TypeName(pc.m.f.jobType)] && runner.first(pc.plain).Some? && pc.saved.Some?
    ensures PcOK(c, x, Computed(pc.m, pc.fail, runner.rest(pc.saved.value)))
  {
    ComputedOK(c, x, pc.m, pc.fail, runner.rest(pc.saved.value));
  }

  /** A rejected input and a first run lead to program counters that follow from the claim. */
  lemma FreshRunStep(c: Config, x: Stores, pc: PC, ch: Choice)
    requires Ready(c, x, pc) && pc.Running? && TypeName(pc.m.f.jobType) in c.runners
    ensures PcOK(c, x, Commit(pc.m, FailRow(pc.m, "runner failed"), Bury))
    ensures var first := c.runners[TypeName(pc.m.f.jobType)].first(pc.plain);
            first.Some? ==> PcOK(c, x, SaveInsert(pc.m, pc.fail, first.value))
  {}

  lemma RunStep(c: Config, x: Stores, pc: PC, ch: Choice)
    requires Ready(c, x, pc) && pc.Running?
    ensures ReadOnly(c, x, Effect(c, x, pc, ch))
  {
    if TypeName(pc.m.f.jobType) in c.runners {
      var runner := c.runners[TypeName(pc.m.f.jobType)];
      FreshRunStep(c, x, pc, ch);
      if runner.first(pc.plain).Some? {
        if runner.usesPolicy && Docs(x, pc.m.f.id) != [] { PolicyRunStep(c, x, pc, ch, runner); }
        if pc.saved.Some? { ResumedRunStep(c, x, pc, ch, runner); }
      }
    }
  }

  // ----- steps that write

  lemma GoOK(c: Config, x: Stores, y: Stores, pc: PC)
    requires Kept(c, x, y) && PcOK(c, y, pc)
    ensures OutcomeOK(c, x, Go(y, pc))
  {}

  lemma SaveStep(c: Config, x: Stores, pc: PC, ch: Choice)
    requires Shared(c, x) && PcOK(c, x, pc) && pc.SaveSet?
    ensures OutcomeOK(c, x, Effect(c, x, pc, ch))
  {
    var SaveSet(m, fail, partial, sealed) := pc;
    var y := WithMem(x, x.r.mem[m.f.id := sealed]);
    var out := c.runners[TypeName(m.f.jobType)].rest(partial);
    SaveMemKept(c, x, m.f.id, sealed);
    MsgStable(x, y, m);
    ComputedOK(c, y, m, fail, out);
    GoOK(c, x, y, Computed(m, fail, out));
    assert Effect(c, x, pc, ch) == Go(y, Computed(m, fail, out));
  }

  lemma RecordedPc(c: Config, x: Stores, pc: PC)
    requires PcOK(c, x, pc) && pc.Commit?
    requires pc.m.f.id in x.p.rows && x.p.rows[pc.m.f.id].state == pc.row.state
    ensures PcOK(c, x, PurgeGet(pc.m, pc.via))
  {}

  lemma RecordStep(c: Config, x: Stores, pc: PC, ch: Choice)
    requires Shared(c, x) && PcOK(c, x, pc) && pc.Commit?
    ensures OutcomeOK(c, x, Effect(c, x, pc, ch))
  {
    var Commit(m, row, via) := pc;
    if m.f.id !in x.p.rows {
      var y := WithRow(x, m.f.id, row);
      RecordKept(c, x, m.f.id, row);
      WorkerStable(c, x, y, Worker([], pc));
      RecordedPc(c, y, pc);
      GoOK(c, x, y, PurgeGet(m, via));
      assert Effect(c, x, pc, ch) == Go(y, PurgeGet(m, via));
    } else if x.p.rows[m.f.id].state == row.state && c.checksum(x.p.rows[m.f.id].body) == c.checksum(row.body) {
      RecordedPc(c, x, pc);
      ReadOnlyKept(c, x, Go(x, PurgeGet(m, via)));
      assert Effect(c, x, pc, ch) == Go(x, PurgeGet(m, via));
    }
  }

  lemma ReceiptedPc(c: Config, x: Stores, pc: PC)
    requires PcOK(c, x, pc) && pc.PurgeInsert? && pc.m.f.id in x.p.receipts
    ensures PcOK(c, x, PurgeGetAgain(pc.m, pc.via)) && PcOK(c, x, PurgeDestroy(pc.m, x.p.receipts[pc.m.f.id], pc.via))
  {}

  lemma ReceiptStep(c: Config, x: Stores, pc: PC, ch: Choice)
    requires Shared(c, x) && PcOK(c, x, pc) && pc.PurgeInsert?
    ensures OutcomeOK(c, x, Effect(c, x, pc, ch))
  {
    var PurgeInsert(m, at, via) := pc;
    if m.f.id !in x.p.receipts {
      var y := WithReceipt(x, m.f.tenant, m.f.id, at);
      ReceiptKept(c, x, m.f.tenant, m.f.id, at);
      WorkerStable(c, x, y, Worker([], pc));
      ReceiptedPc(c, y, pc);
      GoOK(c, x, y, PurgeDestroy(m, at, via));
      assert Effect(c, x, pc, ch) == Go(y, PurgeDestroy(m, at, via));
    } else {
      ReceiptedPc(c, x, pc);
      ReadOnlyKept(c, x, Go(x, PurgeGetAgain(m, via)));
      assert Effect(c, x, pc, ch) == Go(x, PurgeGetAgain(m, via));
    }
  }

  lemma DestroyedPc(c: Config, x: Stores, pc: PC)
    requires PcOK(c, x, pc) && pc.PurgeDestroy? && Done(x.p, pc.m.f.id)
    ensures PcOK(c, x, PurgeDrop(pc.m, pc.via))
  {}

  lemma PurgedPc(c: Config, x: Stores, m: Msg, via: Via)
    requires PcOK(c, x, PurgeDrop(m, via))
    ensures PcOK(c, x, AfterPurge(m, via))
  {}

  lemma DestroyStep(c: Config, x: Stores, pc: PC, ch: Choice)
    requires Shared(c, x) && PcOK(c, x, pc) && pc.PurgeDestroy?
    ensures OutcomeOK(c, x, Effect(c, x, pc, ch))
  {
    var y := WithKeys(x, Destroy(x.p.keys, pc.m.f.id, pc.at));
    DestroyKept(c, x, pc.m.f.id);
    WorkerStable(c, x, y, Worker([], pc));
    DestroyedPc(c, y, pc);
    GoOK(c, x, y, PurgeDrop(pc.m, pc.via));
    assert Effect(c, x, pc, ch) == Go(y, PurgeDrop(pc.m, pc.via));
  }

  lemma DropMemStep(c: Config, x: Stores, pc: PC, ch: Choice)
    requires Shared(c, x) && PcOK(c, x, pc) && pc.PurgeDrop?
    ensures OutcomeOK(c, x, Effect(c, x, pc, ch))
  {
    var y := WithMem(x, x.r.mem - {pc.m.f.id});
    DropMemKept(c, x, pc.m.f.id);
    WorkerStable(c, x, y, Worker([], pc));
    PurgedPc(c, y, pc.m, pc.via);
    GoOK(c, x, y, AfterPurge(pc.m, pc.via));
    assert Effect(c, x, pc, ch) == Go(y, AfterPurge(pc.m, pc.via));
  }

  /** The script reads the counter that was peeked at, so it buries only after a failed row. */
  ghost predicate SettleAgrees(r: Redis, pc: PC) { pc.Settle? ==> RetryOf(r, pc.m.f.id) == pc.seen <= 2 }

  lemma FinishStep(c: Config, x: Stores, pc: PC, ch: Choice)
    requires Shared(c, x) && PcOK(c, x, pc) && pc.Finish?
    ensures OutcomeOK(c, x, Effect(c, x, pc, ch))
  {
    var y := WithRedis(x, Drop(x.r, pc.m.entry));
    DropKept(c, x, pc.m);
    GoOK(c, x, y, Idle);
    assert Effect(c, x, pc, ch) == Go(y, Idle);
  }

  lemma BuryStep(c: Config, x: Stores, pc: PC, ch: Choice)
    requires Shared(c, x) && PcOK(c, x, pc) && SettleAgrees(x.r, pc)
    requires pc.SettleForced? || (pc.Settle? && pc.seen >= 2)
    ensures OutcomeOK(c, x, Effect(c, x, pc, ch))
  {
    var y := WithRedis(x, Buried(x.r, pc.m));
    BuryKept(c, x, pc.m);
    GoOK(c, x, y, Idle);
    assert Effect(c, x, pc, ch) == Go(y, Idle);
  }

  lemma RequeueIs(c: Config, x: Stores, pc: PC, ch: Choice)
    requires SettleAgrees(x.r, pc) && pc.Settle? && pc.seen < 2
    ensures Effect(c, x, pc, ch) == Go(WithRequeue(x, pc.m, pc.seen + 1), Idle)
  {}

  lemma RequeueStep(c: Config, x: Stores, pc: PC, ch: Choice)
    requires Shared(c, x) && PcOK(c, x, pc) && SettleAgrees(x.r, pc) && pc.Settle? && pc.seen < 2
    ensures OutcomeOK(c, x, Effect(c, x, pc, ch))
  {
    var y := WithRequeue(x, pc.m, pc.seen + 1);
    RequeueKept(c, x, pc.m, pc.seen + 1);
    GoOK(c, x, y, Idle);
    RequeueIs(c, x, pc, ch);
  }

  lemma ReadStep(c: Config, x: Stores, pc: PC, ch: Choice)
    requires Ready(c, x, pc)
    requires !(pc.SaveSet? || pc.Commit? || pc.PurgeInsert? || pc.PurgeDestroy? || pc.PurgeDrop?)
    requires !(pc.Finish? || pc.SettleForced? || pc.Settle?)
    ensures ReadOnly(c, x, Effect(c, x, pc, ch))
  {
    if pc.LoadRow? || pc.LoadMem? { LoadStep(c, x, pc, ch); }
    else if pc.MemInsert? || pc.SaveInsert? { EnsureStep(c, x, pc, ch); }
    else if pc.MemSelect? { OpenCheckpointStep(c, x, pc, ch); }
    else if pc.LoadKey? { OpenInputStep(c, x, pc, ch); }
    else if pc.Running? { RunStep(c, x, pc, ch); }
    else if pc.SaveSelect? { SealStep(c, x, pc, ch); }
    else if pc.Peek? { PeekStep(c, x, pc, ch); }
    else { ReceiptReadStep(c, x, pc, ch); }
  }

  lemma EffectKeeps(c: Config, x: Stores, pc: PC, ch: Choice)
    requires Shared(c, x) && PcOK(c, x, pc) && SettleAgrees(x.r, pc)
    ensures OutcomeOK(c, x, Effect(c, x, pc, ch))
  {
    if pc.Idle? { ReadOnlyKept(c, x, Go(x, Idle)); }
    else if pc.SaveSet? { SaveStep(c, x, pc, ch); }
    else if pc.Commit? { RecordStep(c, x, pc, ch); }
    else if pc.PurgeInsert? { ReceiptStep(c, x, pc, ch); }
    else if pc.PurgeDestroy? { DestroyStep(c, x, pc, ch); }
    else if pc.PurgeDrop? { DropMemStep(c, x, pc, ch); }
    else if pc.Finish? { FinishStep(c, x, pc, ch); }
    else if pc.Settle? && pc.seen < 2 { RequeueStep(c, x, pc, ch); }
    else if pc.SettleForced? || pc.Settle? { BuryStep(c, x, pc, ch); }
    else {
      JobAt(c, x, pc.m.f.id);
      ReadStep(c, x, pc, ch);
      ReadOnlyKept(c, x, Effect(c, x, pc, ch));
    }
  }
}
