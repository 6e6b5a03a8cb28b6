/**
  Which failed jobs get a dead letter. A job's FAILED row is committed before the settle script
  writes the dead letter, so a crash in between loses it: the reclaimed entry finds the row and
  is purged and acknowledged. Nothing else does.
 */
module DeadLetters {
  import opened Basics
  import opened Protocol
  import opened ProtocolInvariant
  import opened ProtocolSteps
  import opened ProtocolExclusive
  import opened ProtocolTheorems

  /** From the FAILED row of `j` up to the settle script that buries it. */
  ghost predicate Burying(pc: PC, j: JobId) {
    && !pc.Idle? && pc.m.f.id == j
    && (|| (InPurge(pc) && (pc.via.Bury? || pc.via.FailHook?))
        || pc.SettleForced?
        || (pc.Settle? && pc.seen >= 2))
  }

  ghost predicate Lettered(dlq: seq<DeadLetter>, j: JobId) { exists k :: 0 <= k < |dlq| && dlq[k].id == j }

  ghost predicate SomeoneBuries(ws: map<WorkerId, Worker>, j: JobId) { exists w :: w in ws && Burying(ws[w].pc, j) }

  /** The action crashes a worker that was burying `j`. */
  ghost predicate Interrupts(s: State, a: Action, j: JobId) {
    a.Crash? && a.w in s.workers && Burying(s.workers[a.w].pc, j)
  }

  ghost predicate Interrupted(states: seq<State>, acts: seq<Action>, i: nat, j: JobId) {
    exists k :: 0 <= k < i && k < |states| && k < |acts| && Interrupts(states[k], acts[k], j)
  }

  // ----- without an interruption, in both regimes

  ghost predicate Accounted(s: State, j: JobId) {
    FailedRow(s.x.p.rows, j) ==> Lettered(s.x.r.dlq, j) || SomeoneBuries(s.workers, j)
  }

  lemma LetterAdded(dlq: seq<DeadLetter>, d: DeadLetter, j: JobId)
    ensures Lettered(dlq + [d], j) <==> Lettered(dlq, j) || d.id == j
  {
    assert (dlq + [d])[|dlq|] == d;
    if Lettered(dlq, j) {
      var k :| 0 <= k < |dlq| && dlq[k].id == j;
      assert (dlq + [d])[k].id == j;
    }
  }

  /** What an effect does to the dead letters. */
  lemma DlqOfEffect(c: Config, x: Stores, pc: PC, ch: Choice)
    requires Effect(c, x, pc, ch).Go?
    ensures var dlq := Effect(c, x, pc, ch).x.r.dlq;
            || dlq == x.r.dlq
            || ((pc.SettleForced? || (pc.Settle? && RetryOf(x.r, pc.m.f.id) >= 2)) && dlq == x.r.dlq + [DeadOf(pc.m.f)])
  {}

  lemma PurgingGoesOn(c: Config, x: Stores, pc: PC, ch: Choice, j: JobId)
    requires PcOK(c, x, pc) && InPurge(pc) && Burying(pc, j)
    ensures Effect(c, x, pc, ch).Go? && Burying(Effect(c, x, pc, ch).pc, j)
  {}

  /** A worker that buries goes on burying until the dead letter is there. */
  lemma BuryingGoesOn(c: Config, x: Stores, pc: PC, ch: Choice, j: JobId)
    requires PcOK(c, x, pc) && SettleAgrees(x.r, pc) && Burying(pc, j)
    ensures var o := Effect(c, x, pc, ch); o.Go? && (Burying(o.pc, j) || Lettered(o.x.r.dlq, j))
  {
    if InPurge(pc) {
      PurgingGoesOn(c, x, pc, ch, j);
    } else {
      BuryIs(c, x, pc, ch);
      LetterAdded(x.r.dlq, DeadOf(pc.m.f), j);
    }
  }

  /** A FAILED row appears where its worker begins to bury. */
  lemma FailedRowAppears(c: Config, x: Stores, pc: PC, ch: Choice, j: JobId)
    requires PcOK(c, x, pc) && Effect(c, x, pc, ch).Go?
    requires !FailedRow(x.p.rows, j) && FailedRow(Effect(c, x, pc, ch).x.p.rows, j)
    ensures Burying(Effect(c, x, pc, ch).pc, j)
  {
    assert pc.Commit?;
  }

  lemma LettersStay(c: Config, x: Stores, pc: PC, ch: Choice, j: JobId)
    requires Effect(c, x, pc, ch).Go? && Lettered(x.r.dlq, j)
    ensures Lettered(Effect(c, x, pc, ch).x.r.dlq, j)
  {
    DlqOfEffect(c, x, pc, ch);
    if !pc.Idle? { LetterAdded(x.r.dlq, DeadOf(pc.m.f), j); }
  }

  /** What an outcome may do to the account of `j`. */
  ghost predicate AccountKept(x: Stores, pc: PC, o: Outcome, j: JobId) {
    match o
    case Dead => !Burying(pc, j)
    case Go(y, pc') =>
      && (FailedRow(y.p.rows, j) ==> FailedRow(x.p.rows, j) || Burying(pc', j))
      && (Lettered(x.r.dlq, j) ==> Lettered(y.r.dlq, j))
      && (Burying(pc, j) ==> Burying(pc', j) || Lettered(y.r.dlq, j))
  }

  lemma EffectAccount(c: Config, x: Stores, pc: PC, ch: Choice, j: JobId)
    requires PcOK(c, x, pc) && SettleAgrees(x.r, pc)
    ensures AccountKept(x, pc, Effect(c, x, pc, ch), j)
  {
    if Burying(pc, j) { BuryingGoesOn(c, x, pc, ch, j); }
    if Effect(c, x, pc, ch).Go? {
      if Lettered(x.r.dlq, j) { LettersStay(c, x, pc, ch, j); }
      if !FailedRow(x.p.rows, j) && FailedRow(Effect(c, x, pc, ch).x.p.rows, j) { FailedRowAppears(c, x, pc, ch, j); }
    }
  }

  lemma AfterAccounted(s: State, w: WorkerId, o: Outcome, j: JobId)
    requires w in s.workers && Accounted(s, j) && AccountKept(s.x, s.workers[w].pc, o, j)
    ensures Accounted(After(s, w, o), j)
  {
    var s' := After(s, w, o);
    if FailedRow(s'.x.p.rows, j) && !Lettered(s'.x.r.dlq, j) {
      if !Burying(s'.workers[w].pc, j) {
        var v :| v in s.workers && Burying(s.workers[v].pc, j);
        assert v != w && s'.workers[v] == s.workers[v];
      }
    }
  }

  lemma WorkAccounted(c: Config, s: State, w: WorkerId, ch: Choice, j: JobId)
    requires Supported(c) && Inv(c, s) && w in s.workers && Accounted(s, j)
    ensures Accounted(After(s, w, Effect(c, s.x, s.workers[w].pc, ch)), j)
  {
    AgreesHere(c, s, w);
    assert WorkerOK(c, s.x, s.workers[w]);
    EffectAccount(c, s.x, s.workers[w].pc, ch, j);
    AfterAccounted(s, w, Effect(c, s.x, s.workers[w].pc, ch), j);
  }

  /** Only one worker changes, and it was not burying. */
  lemma OthersBury(ws: map<WorkerId, Worker>, w: WorkerId, k: Worker, j: JobId)
    requires SomeoneBuries(ws, j) && (w in ws ==> !Burying(ws[w].pc, j))
    ensures SomeoneBuries(ws[w := k], j)
  {
    var v :| v in ws && Burying(ws[v].pc, j);
    assert v != w && ws[w := k][v] == ws[v];
  }

  lemma BystanderAccounted(c: Config, s: State, a: Action, j: JobId)
    requires Enabled(c, s, a) && !a.Work? && !Interrupts(s, a, j) && SomeoneBuries(s.workers, j)
    ensures SomeoneBuries(Apply(c, s, a).workers, j)
  {
    if a.Join? || a.Claim? || a.Dispatch? || a.Crash? {
      OthersBury(s.workers, a.w, Apply(c, s, a).workers[a.w], j);
    }
  }

  lemma ActionAccounted(c: Config, s: State, a: Action, j: JobId)
    requires Supported(c) && Inv(c, s) && Enabled(c, s, a) && Accounted(s, j) && !Interrupts(s, a, j)
    ensures Accounted(Apply(c, s, a), j)
  {
    if a.Work? {
      WorkAccounted(c, s, a.w, a.ch, j);
    } else {
      OnlyWorkWrites(c, s, a);
      if SomeoneBuries(s.workers, j) { BystanderAccounted(c, s, a, j); }
    }
  }

  lemma StepAccounted(c: Config, states: seq<State>, acts: seq<Action>, i: nat, j: JobId)
    requires Supported(c) && IsRun(c, states, acts) && i < |acts|
    requires Accounted(states[i], j) && !Interrupts(states[i], acts[i], j)
    ensures Accounted(states[i + 1], j)
  {
    RunInv(c, states, acts, i);
    assert Takes(c, states[i], acts[i], states[i + 1]);
    ActionAccounted(c, states[i], acts[i], j);
  }

  /** In both regimes: unless a burial of `j` was interrupted, a FAILED row of `j` comes with its
      dead letter or with a worker that is still about to write it. */
  lemma {:induction false} UninterruptedBurial(c: Config, states: seq<State>, acts: seq<Action>, i: nat, j: JobId)
    requires Supported(c) && IsRun(c, states, acts) && i < |states| && !Interrupted(states, acts, i, j)
    ensures FailedRow(states[i].x.p.rows, j) ==>
              Lettered(states[i].x.r.dlq, j) || SomeoneBuries(states[i].workers, j)
  {
    if i > 0 {
      assert !Interrupted(states, acts, i - 1, j);
      UninterruptedBurial(c, states, acts, i - 1, j);
      assert !Interrupts(states[i - 1], acts[i - 1], j);
      StepAccounted(c, states, acts, i - 1, j);
    }
  }

  // ----- under exclusive claims

  /** A buried job has no entry left. */
  ghost predicate NoEntryLeft(r: Redis) { forall e :: e in r.stream ==> !Lettered(r.dlq, r.stream[e].id) }

  lemma DropLeavesNone(r: Redis, e: EntryId)
    requires NoEntryLeft(r)
    ensures NoEntryLeft(Drop(r, e))
  {}

  lemma BuryLeavesNone(h: History, r: Redis, m: Msg)
    requires NoEntryLeft(r) && QueueOK(h, r) && m.entry in r.stream && r.stream[m.entry] == m.f
    ensures NoEntryLeft(Buried(r, m))
  {
    forall e | e in Buried(r, m).stream ensures !Lettered(Buried(r, m).dlq, Buried(r, m).stream[e].id) {
      LetterAdded(r.dlq, DeadOf(m.f), r.stream[e].id);
      assert e != m.entry && h.home[r.stream[e].id] == e && h.home[m.f.id] == m.entry;
    }
  }

  lemma RequeueLeavesNone(r: Redis, m: Msg, n: int)
    requires NoEntryLeft(r) && m.entry in r.stream && r.stream[m.entry] == m.f
    ensures NoEntryLeft(Requeued(r, m, n))
  {}

  /** The queue after an effect. */
  lemma QueueOfEffect(c: Config, x: Stores, pc: PC, ch: Choice)
    requires Effect(c, x, pc, ch).Go? && !pc.Idle?
    ensures var r := Effect(c, x, pc, ch).x.r;
            || (r.stream == x.r.stream && r.dlq == x.r.dlq)
            || (pc.Finish? && r == Drop(x.r, pc.m.entry))
            || r == Buried(x.r, pc.m)
            || exists n :: r == Requeued(x.r, pc.m, n)
  {
    if pc.Settle? {
      var n := RetryOf(x.r, pc.m.f.id) + 1;
      assert n < 3 ==> Effect(c, x, pc, ch).x.r == Requeued(x.r, pc.m, n);
    }
  }

  lemma EffectLeavesNone(c: Config, x: Stores, pc: PC, ch: Choice)
    requires NoEntryLeft(x.r) && QueueOK(x.h, x.r) && Effect(c, x, pc, ch).Go?
    requires !pc.Idle? ==> pc.m.entry in x.r.stream && x.r.stream[pc.m.entry] == pc.m.f
    ensures NoEntryLeft(Effect(c, x, pc, ch).x.r)
  {
    if !pc.Idle? {
      var r := Effect(c, x, pc, ch).x.r;
      QueueOfEffect(c, x, pc, ch);
      DropLeavesNone(x.r, pc.m.entry);
      BuryLeavesNone(x.h, x.r, pc.m);
      if exists n :: r == Requeued(x.r, pc.m, n) {
        var n :| r == Requeued(x.r, pc.m, n);
        RequeueLeavesNone(x.r, pc.m, n);
      }
    }
  }

  /** A worker's own entry is in the stream with the fields it claimed. */
  lemma OwnEntry(c: Config, s: State, w: WorkerId)
    requires WorkersOK(c, s.x, s.workers) && Exclusive(s) && w in s.workers && !s.workers[w].pc.Idle?
    ensures var m := s.workers[w].pc.m; m.entry in s.x.r.stream && s.x.r.stream[m.entry] == m.f && MsgOK(s.x, m)
  {
    assert HoldsOK(s.x, s.workers[w]) && WorkerOK(c, s.x, s.workers[w]);
    assert s.workers[w].pc.m.entry in Held(s.workers[w]);
  }

  lemma AddLeavesNone(x: Stores, j: JobId, job: Job)
    requires NoEntryLeft(x.r) && DlqOK(x.h.accepted, x.p.rows, x.r.dlq) && !Known(x, j)
    ensures NoEntryLeft(WithJob(x, j, job).r)
  {}

  lemma ActionLeavesNone(c: Config, s: State, a: Action)
    requires Supported(c) && c.exclusive && Inv(c, s) && Enabled(c, s, a) && NoEntryLeft(s.x.r)
    ensures NoEntryLeft(Apply(c, s, a).x.r)
  {
    if a.Work? {
      var pc := s.workers[a.w].pc;
      if !pc.Idle? { OwnEntry(c, s, a.w); }
      if Effect(c, s.x, pc, a.ch).Go? { EffectLeavesNone(c, s.x, pc, a.ch); }
    } else if a.AddEntry? {
      AddLeavesNone(s.x, a.j, a.job);
    }
  }

  lemma StepLeavesNone(c: Config, states: seq<State>, acts: seq<Action>, i: nat)
    requires Supported(c) && c.exclusive && IsRun(c, states, acts) && i < |acts| && NoEntryLeft(states[i].x.r)
    ensures NoEntryLeft(states[i + 1].x.r)
  {
    RunInv(c, states, acts, i);
    assert Takes(c, states[i], acts[i], states[i + 1]);
    ActionLeavesNone(c, states[i], acts[i]);
  }

  lemma {:induction false} RunLeavesNone(c: Config, states: seq<State>, acts: seq<Action>, i: nat)
    requires Supported(c) && c.exclusive && IsRun(c, states, acts) && i < |states|
    ensures NoEntryLeft(states[i].x.r)
  {
    if i > 0 {
      RunLeavesNone(c, states, acts, i - 1);
      StepLeavesNone(c, states, acts, i - 1);
    }
  }

  /** Failed, without a dead letter, and nobody about to write one. */
  ghost predicate Forgotten(s: State, j: JobId) {
    FailedRow(s.x.p.rows, j) && !Lettered(s.x.r.dlq, j) && !SomeoneBuries(s.workers, j)
  }

  lemma BuriesFailed(c: Config, x: Stores, pc: PC, j: JobId)
    requires PcOK(c, x, pc) && Burying(pc, j)
    ensures FailedRow(x.p.rows, j)
  {}

  /** Once a row exists no worker comes to bury. */
  lemma NobodyBegins(c: Config, x: Stores, pc: PC, ch: Choice, j: JobId)
    requires Local(x, pc) && j in x.p.rows && !Burying(pc, j) && Effect(c, x, pc, ch).Go?
    ensures !Burying(Effect(c, x, pc, ch).pc, j)
  {}

  lemma NoLetterAppears(c: Config, x: Stores, pc: PC, ch: Choice, j: JobId)
    requires Local(x, pc) && j in x.p.rows && !Burying(pc, j) && Effect(c, x, pc, ch).Go? && !Lettered(x.r.dlq, j)
    ensures !Lettered(Effect(c, x, pc, ch).x.r.dlq, j)
  {
    DlqOfEffect(c, x, pc, ch);
    if !pc.Idle? { LetterAdded(x.r.dlq, DeadOf(pc.m.f), j); }
  }

  lemma WorkForgets(c: Config, s: State, w: WorkerId, ch: Choice, j: JobId)
    requires Supported(c) && c.exclusive && Inv(c, s) && w in s.workers && Forgotten(s, j)
    ensures Forgotten(After(s, w, Effect(c, s.x, s.workers[w].pc, ch)), j)
  {
    var pc := s.workers[w].pc;
    var o := Effect(c, s.x, pc, ch);
    assert HoldsOK(s.x, s.workers[w]) && !Burying(pc, j);
    if o.Go? {
      NobodyBegins(c, s.x, pc, ch, j);
      NoLetterAppears(c, s.x, pc, ch, j);
      WorkKeeps(c, s, w, ch);
    }
    NobodyElse(s.workers, w, After(s, w, o).workers[w], j);
  }

  lemma NobodyElse(ws: map<WorkerId, Worker>, w: WorkerId, k: Worker, j: JobId)
    requires (forall v :: v in ws && v != w ==> !Burying(ws[v].pc, j)) && !Burying(k.pc, j)
    ensures !SomeoneBuries(ws[w := k], j)
  {}

  /** Rows and dead letters change only while a worker works. */
  lemma OnlyWorkWrites(c: Config, s: State, a: Action)
    requires Enabled(c, s, a) && !a.Work?
    ensures Apply(c, s, a).x.p.rows == s.x.p.rows && Apply(c, s, a).x.r.dlq == s.x.r.dlq
  {}

  /** The workers after any other action: none or one changes, and that one is at rest or begins. */
  lemma OnlyOneMoves(c: Config, s: State, a: Action, j: JobId)
    requires Enabled(c, s, a) && !a.Work? && !SomeoneBuries(s.workers, j)
    ensures !SomeoneBuries(Apply(c, s, a).workers, j)
  {
    if a.Join? || a.Claim? || a.Dispatch? || a.Crash? {
      NobodyElse(s.workers, a.w, Apply(c, s, a).workers[a.w], j);
    }
  }

  lemma ActionForgets(c: Config, s: State, a: Action, j: JobId)
    requires Supported(c) && c.exclusive && Inv(c, s) && Enabled(c, s, a) && Forgotten(s, j)
    ensures Forgotten(Apply(c, s, a), j)
  {
    if a.Work? {
      WorkForgets(c, s, a.w, a.ch, j);
    } else {
      OnlyWorkWrites(c, s, a);
      OnlyOneMoves(c, s, a, j);
    }
  }

  /** Nobody else works on the job of a worker. */
  lemma OnlyOne(c: Config, s: State, w: WorkerId, v: WorkerId)
    requires WorkersOK(c, s.x, s.workers) && Exclusive(s) && w in s.workers && v in s.workers && v != w
    requires !s.workers[w].pc.Idle? && !s.workers[v].pc.Idle?
    ensures s.workers[w].pc.m.f.id != s.workers[v].pc.m.f.id
  {
    OwnEntry(c, s, w);
    OwnEntry(c, s, v);
    assert Held(s.workers[w]) !! Held(s.workers[v]);
    assert s.workers[w].pc.m.entry in Held(s.workers[w]) && s.workers[v].pc.m.entry in Held(s.workers[v]);
    DifferentJobs(s.x, s.workers[w].pc.m, s.workers[v].pc.m);
  }

  lemma NobodyElseBuries(c: Config, s: State, w: WorkerId, j: JobId)
    requires WorkersOK(c, s.x, s.workers) && Exclusive(s) && w in s.workers && Burying(s.workers[w].pc, j)
    ensures forall v :: v in s.workers && v != w ==> !Burying(s.workers[v].pc, j)
  {
    forall v | v in s.workers && v != w ensures !Burying(s.workers[v].pc, j) {
      if !s.workers[v].pc.Idle? { OnlyOne(c, s, w, v); }
    }
  }

  lemma NotYetLettered(c: Config, s: State, w: WorkerId, j: JobId)
    requires WorkersOK(c, s.x, s.workers) && Exclusive(s) && NoEntryLeft(s.x.r)
    requires w in s.workers && Burying(s.workers[w].pc, j)
    ensures FailedRow(s.x.p.rows, j) && !Lettered(s.x.r.dlq, j)
  {
    OwnEntry(c, s, w);
    assert WorkerOK(c, s.x, s.workers[w]);
    BuriesFailed(c, s.x, s.workers[w].pc, j);
  }

  /** A crash in the middle of a burial forgets the job. */
  lemma CrashForgets(c: Config, s: State, w: WorkerId, j: JobId)
    requires WorkersOK(c, s.x, s.workers) && Exclusive(s) && NoEntryLeft(s.x.r)
    requires w in s.workers && Burying(s.workers[w].pc, j)
    ensures Forgotten(After(s, w, Dead), j)
  {
    NotYetLettered(c, s, w, j);
    NobodyElseBuries(c, s, w, j);
    NobodyElse(s.workers, w, Worker([], Idle), j);
  }

  lemma StepForgets(c: Config, states: seq<State>, acts: seq<Action>, i: nat, j: JobId)
    requires Supported(c) && c.exclusive && IsRun(c, states, acts) && i < |acts|
    requires Forgotten(states[i], j) || Interrupts(states[i], acts[i], j)
    ensures Forgotten(states[i + 1], j)
  {
    RunInv(c, states, acts, i);
    RunLeavesNone(c, states, acts, i);
    assert Takes(c, states[i], acts[i], states[i + 1]);
    if Forgotten(states[i], j) {
      ActionForgets(c, states[i], acts[i], j);
    } else {
      CrashForgets(c, states[i], acts[i].w, j);
    }
  }

  lemma {:induction false} InterruptedIsForgotten(c: Config, states: seq<State>, acts: seq<Action>, i: nat, j: JobId)
    requires Supported(c) && c.exclusive && IsRun(c, states, acts) && i < |states| && Interrupted(states, acts, i, j)
    ensures Forgotten(states[i], j)
  {
    var k :| 0 <= k < i && k < |states| && k < |acts| && Interrupts(states[k], acts[k], j);
    if k < i - 1 {
      assert Interrupted(states, acts, i - 1, j);
      InterruptedIsForgotten(c, states, acts, i - 1, j);
    }
    StepForgets(c, states, acts, i - 1, j);
  }

  lemma BurierHoldsEntry(c: Config, s: State, j: JobId)
    requires WorkersOK(c, s.x, s.workers) && Exclusive(s) && SomeoneBuries(s.workers, j)
    ensures !Acked(s.x, j)
  {
    var w :| w in s.workers && Burying(s.workers[w].pc, j);
    OwnEntry(c, s, w);
  }

  /** Under exclusive claims an acknowledged FAILED job has a dead letter if and only if no crash
      fell between its row and its burial. */
  lemma DeadLetterIff(c: Config, states: seq<State>, acts: seq<Action>, i: nat, j: JobId)
    requires Supported(c) && c.exclusive && IsRun(c, states, acts) && i < |states|
    requires FailedRow(states[i].x.p.rows, j) && Acked(states[i].x, j)
    ensures Lettered(states[i].x.r.dlq, j) <==> !Interrupted(states, acts, i, j)
  {
    RunInv(c, states, acts, i);
    if Interrupted(states, acts, i, j) {
      InterruptedIsForgotten(c, states, acts, i, j);
    } else {
      UninterruptedBurial(c, states, acts, i, j);
      if SomeoneBuries(states[i].workers, j) { BurierHoldsEntry(c, states[i], j); }
    }
  }

  // ----- a run that loses a dead letter

  ghost predicate Reaches(c: Config, states: seq<State>, acts: seq<Action>, s: State) {
    IsRun(c, states, acts) && states[|acts|] == s
  }

  lemma Extend(c: Config, states: seq<State>, acts: seq<Action>, s: State, a: Action, s': State)
    returns (states': seq<State>, acts': seq<Action>)
    requires Reaches(c, states, acts, s) && Takes(c, s, a, s')
    ensures Reaches(c, states', acts', s') && acts' == acts + [a]
  {
    states', acts' := states + [s'], acts + [a];
    forall i | 0 <= i < |acts'| ensures Takes(c, states'[i], acts'[i], states'[i + 1]) {
      if i < |acts| { assert Takes(c, states[i], acts[i], states[i + 1]); }
    }
  }

  /** One worker at a program counter with nothing else claimed. */
  function At(x: Stores, pc: PC): State { State(x, map[0 := Worker([], pc)]) }

  const CHOICE := Choice(0, 0, false)

  lemma WorkOn(c: Config, states: seq<State>, acts: seq<Action>, x: Stores, pc: PC, y: Stores, pc': PC)
    returns (states': seq<State>, acts': seq<Action>)
    requires Reaches(c, states, acts, At(x, pc)) && Effect(c, x, pc, CHOICE) == Go(y, pc')
    ensures Reaches(c, states', acts', At(y, pc'))
  {
    assert At(x, pc).workers[0 := At(x, pc).workers[0].(pc := pc')] == At(y, pc').workers;
    states', acts' := Extend(c, states, acts, At(x, pc), Work(0, CHOICE), At(y, pc'));
  }

  lemma EntriesOne(m: Msg)
    ensures Entries([m]) == {m.entry}
  {
    assert [m][0].entry in Entries([m]);
  }

  /** One worker claims the only entry and takes it up. */
  lemma ClaimOn(c: Config, states: seq<State>, acts: seq<Action>, x: Stores, m: Msg)
    returns (states': seq<State>, acts': seq<Action>)
    requires Reaches(c, states, acts, At(x, Idle)) && m.entry in x.r.stream && x.r.stream[m.entry] == m.f
    ensures Reaches(c, states', acts', At(Claimed(x, m), LoadRow(m, false)))
  {
    var stolen := m.entry in x.r.pending;
    var held := State(Claimed(x, m), map[0 := Worker([m], Idle)]);
    EntriesOne(m);
    assert At(x, Idle).workers[0 := Worker([m], Idle)] == held.workers;
    states', acts' := Extend(c, states, acts, At(x, Idle), Claim(0, [m], stolen), held);
    assert [m][1..] == [];
    assert held.workers[0 := Worker([], LoadRow(m, false))] == At(Claimed(x, m), LoadRow(m, false)).workers;
    states', acts' := Extend(c, states', acts', held, Dispatch(0, false), At(Claimed(x, m), LoadRow(m, false)));
  }

  function Claimed(x: Stores, m: Msg): Stores { WithRedis(x, x.r.(pending := x.r.pending + {m.entry})) }

  /** The runner rejects the input: five effects up to the FAILED row. */
  lemma RejectOn(c: Config, states: seq<State>, acts: seq<Action>, x: Stores, m: Msg, plain: string)
    returns (states': seq<State>, acts': seq<Action>)
    requires Reaches(c, states, acts, At(x, LoadRow(m, false))) && m.f.id !in x.p.rows && m.f.id !in x.r.mem
    requires TypeName(m.f.jobType) in c.runners && c.runners[TypeName(m.f.jobType)].first(plain) == None
    requires m.f.id in x.p.keys && x.p.keys[m.f.id].Live? && Open(x.p.keys[m.f.id].key, m.f.input) == Some(plain)
    ensures Reaches(c, states', acts', At(WithRow(x, m.f.id, FailRow(m, "runner failed")), PurgeGet(m, Bury)))
  {
    var row := FailRow(m, "runner failed");
    states', acts' := WorkOn(c, states, acts, x, LoadRow(m, false), x, LoadMem(m, false));
    states', acts' := WorkOn(c, states', acts', x, LoadMem(m, false), x, LoadKey(m, false, None));
    states', acts' := WorkOn(c, states', acts', x, LoadKey(m, false, None), x, Running(m, false, None, plain));
    states', acts' := WorkOn(c, states', acts', x, Running(m, false, None, plain), x, Commit(m, row, Bury));
    states', acts' := WorkOn(c, states', acts', x, Commit(m, row, Bury), WithRow(x, m.f.id, row), PurgeGet(m, Bury));
  }

  function Booked(x: Stores, m: Msg): Stores { WithReceipt(x, m.f.tenant, m.f.id, CHOICE.now) }

  function Shredded(x: Stores, m: Msg): Stores { WithKeys(x, Destroy(x.p.keys, m.f.id, CHOICE.now)) }

  /** The stores after a reclaimed job with a row was purged and acknowledged. */
  function Finished(x: Stores, m: Msg): Stores {
    var y := Shredded(Booked(x, m), m);
    var z := WithMem(y, y.r.mem - {m.f.id});
    WithRedis(z, Drop(z.r, m.entry))
  }

  lemma BookOn(c: Config, states: seq<State>, acts: seq<Action>, x: Stores, m: Msg)
    returns (states': seq<State>, acts': seq<Action>)
    requires Reaches(c, states, acts, At(x, LoadRow(m, false))) && m.f.id in x.p.rows && m.f.id !in x.p.receipts
    ensures Reaches(c, states', acts', At(Booked(x, m), PurgeDestroy(m, CHOICE.now, Journaled)))
  {
    var insert, destroy := PurgeInsert(m, CHOICE.now, Journaled), PurgeDestroy(m, CHOICE.now, Journaled);
    states', acts' := WorkOn(c, states, acts, x, LoadRow(m, false), x, PurgeGet(m, Journaled));
    states', acts' := WorkOn(c, states', acts', x, PurgeGet(m, Journaled), x, insert);
    states', acts' := WorkOn(c, states', acts', x, insert, Booked(x, m), destroy);
  }

  /** The reclaimed entry has a row: purge and acknowledge in six effects. */
  lemma FinishOn(c: Config, states: seq<State>, acts: seq<Action>, x: Stores, m: Msg)
    returns (states': seq<State>, acts': seq<Action>)
    requires Reaches(c, states, acts, At(x, LoadRow(m, false))) && m.f.id in x.p.rows && m.f.id !in x.p.receipts
    ensures Reaches(c, states', acts', At(Finished(x, m), Idle))
  {
    var destroy := PurgeDestroy(m, CHOICE.now, Journaled);
    var y := Shredded(Booked(x, m), m);
    var z := WithMem(y, y.r.mem - {m.f.id});
    states', acts' := BookOn(c, states, acts, x, m);
    states', acts' := WorkOn(c, states', acts', Booked(x, m), destroy, y, PurgeDrop(m, Journaled));
    states', acts' := WorkOn(c, states', acts', y, PurgeDrop(m, Journaled), z, Finish(m));
    states', acts' := WorkOn(c, states', acts', z, Finish(m), Finished(x, m), Idle);
  }

  const JOB := Job("tenant", "redact", "text", 7)

  /** One job in the stream, nothing else. */
  function OneJob(): Stores {
    Stores(History(map["job" := JOB], map["job" := 0], map["job" := 0]),
           Redis(map[0 := FieldsOf("job", JOB)], 1, {}, [], map[], map[]),
           Postgres(map["job" := Live(7)], map[], map[], map[], map[]))
  }

  lemma Submit(c: Config) returns (states: seq<State>, acts: seq<Action>)
    ensures Reaches(c, states, acts, At(OneJob(), Idle))
  {
    var empty := Stores(History(map[], map[], map[]), Redis(map[], 0, {}, [], map[], map[]),
                        Postgres(map[], map[], map[], map[], map[]));
    var keyed := WithKeys(empty, map["job" := Live(7)]);
    states, acts := [State(empty, map[])], [];
    states, acts := Extend(c, states, acts, State(empty, map[]), Join(0), At(empty, Idle));
    states, acts := Extend(c, states, acts, At(empty, Idle), AddKey("job", 7), At(keyed, Idle));
    assert WithJob(keyed, "job", JOB) == OneJob();
    states, acts := Extend(c, states, acts, At(keyed, Idle), AddEntry("job", JOB), At(OneJob(), Idle));
  }

  /** A runner that rejects every input, exclusive claims and no hook. */
  function Rejecting(): Config {
    Config(map["redact" := Runner(false, (s: string) => None, (s: string) => s, (s: string, d: string) => s)],
           (s: string) => s, false, true)
  }

  /** Submit, claim, commit the FAILED row, crash, reclaim, finish: the job is acknowledged with a
      FAILED row and there is no dead letter. */
  lemma LostDeadLetter() returns (c: Config, states: seq<State>, acts: seq<Action>)
    ensures Supported(c) && c.exclusive && IsRun(c, states, acts)
    ensures var x := states[|acts|].x;
            FailedRow(x.p.rows, "job") && Acked(x, "job") && x.r.dlq == []
    ensures Interrupted(states, acts, |acts|, "job")
  {
    c := Rejecting();
    var m := Msg(0, FieldsOf("job", JOB));
    var x := Claimed(OneJob(), m);
    var y := WithRow(x, "job", FailRow(m, "runner failed"));
    states, acts := Submit(c);
    states, acts := ClaimOn(c, states, acts, OneJob(), m);
    states, acts := RejectOn(c, states, acts, x, m, "text");
    states, acts := Extend(c, states, acts, At(y, PurgeGet(m, Bury)), Crash(0), At(y, Idle));
    assert Claimed(y, m) == y;
    states, acts := ClaimOn(c, states, acts, y, m);
    states, acts := FinishOn(c, states, acts, y, m);
    assert Finished(y, m).r.dlq == [] && Acked(Finished(y, m), "job");
    DeadLetterIff(c, states, acts, |acts|, "job");
  }
}
