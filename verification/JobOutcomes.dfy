/** Why a job fails. A FAILED row always has one of four causes, so a job that has none of them
    is only ever recorded as COMPLETED. */
module JobOutcomes {
  import opened Basics
  import opened Protocol
  import opened ProtocolInvariant
  import opened ProtocolStores
  import opened ProtocolSteps
  import opened ProtocolTheorems
  import opened DeadLetters

  /** The job's type has no runner, or the runner does not accept its input. */
  ghost predicate Rejected(c: Config, job: Job) {
    TypeName(job.jobType) !in c.runners || c.runners[TypeName(job.jobType)].first(job.plain).None?
  }

  /** The action runs `j` while loading the tenant's policy fails. */
  ghost predicate FailsPolicy(c: Config, s: State, a: Action, j: JobId) {
    && a.Work? && a.w in s.workers && s.workers[a.w].pc.Running? && s.workers[a.w].pc.m.f.id == j && a.ch.policyFails
    && var jobType := TypeName(s.workers[a.w].pc.m.f.jobType); jobType in c.runners && c.runners[jobType].usesPolicy
  }

  /** The action takes up `j` with the order to fail it. */
  ghost predicate OrdersFailure(s: State, a: Action, j: JobId) {
    a.Dispatch? && a.fail && a.w in s.workers && s.workers[a.w].batch != [] && s.workers[a.w].batch[0].f.id == j
  }

  ghost predicate PolicyFailed(c: Config, states: seq<State>, acts: seq<Action>, i: nat, j: JobId) {
    exists k :: 0 <= k < i && k < |states| && k < |acts| && FailsPolicy(c, states[k], acts[k], j)
  }

  ghost predicate FailureOrdered(states: seq<State>, acts: seq<Action>, i: nat, j: JobId) {
    exists k :: 0 <= k < i && k < |states| && k < |acts| && OrdersFailure(states[k], acts[k], j)
  }

  // ----- the account of one job

  ghost predicate FailFlag(pc: PC) {
    (|| pc.LoadRow? || pc.LoadMem? || pc.MemInsert? || pc.MemSelect? || pc.LoadKey? || pc.Running?
     || pc.SaveInsert? || pc.SaveSelect? || pc.SaveSet?) && pc.fail
  }

  /** What a program counter on `j` shows: the order to fail was given, or there is a cause. */
  ghost predicate PcAccount(pc: PC, j: JobId, ordered: bool, cause: bool) {
    !pc.Idle? && pc.m.f.id == j ==>
      && (FailFlag(pc) || pc.Peek? ==> ordered)
      && (pc.Commit? && pc.row.state.Failed? ==> cause)
  }

  ghost predicate Account(s: State, j: JobId, ordered: bool, cause: bool) {
    && (FailedRow(s.x.p.rows, j) ==> cause)
    && forall w :: w in s.workers ==> PcAccount(s.workers[w].pc, j, ordered, cause)
  }

  ghost predicate StepAccount(x: Stores, o: Outcome, j: JobId, ordered: bool, cause: bool) {
    o.Go? ==>
      && PcAccount(o.pc, j, ordered, cause)
      && (FailedRow(o.x.p.rows, j) ==> FailedRow(x.p.rows, j) || cause)
  }

  lemma RunAccount(c: Config, x: Stores, pc: PC, ch: Choice, ordered: bool, cause: bool)
    requires PcOK(c, x, pc) && pc.Running? && PcAccount(pc, pc.m.f.id, ordered, cause)
    requires Rejected(c, x.h.accepted[pc.m.f.id]) ==> cause
    requires var jobType := TypeName(pc.m.f.jobType);
             ch.policyFails && jobType in c.runners && c.runners[jobType].usesPolicy ==> cause
    ensures StepAccount(x, Effect(c, x, pc, ch), pc.m.f.id, ordered, cause)
  {}

  lemma InputAccount(c: Config, x: Stores, pc: PC, ch: Choice, ordered: bool, cause: bool)
    requires Ready(c, x, pc) && pc.LoadKey? && PcAccount(pc, pc.m.f.id, ordered, cause)
    requires Rejected(c, x.h.accepted[pc.m.f.id]) ==> cause
    ensures StepAccount(x, Effect(c, x, pc, ch), pc.m.f.id, ordered, cause)
  {
    if TypeName(pc.m.f.jobType) in c.runners { InputOpens(c, x, pc, ch); }
  }

  lemma CommitAccount(c: Config, x: Stores, pc: PC, ch: Choice, ordered: bool, cause: bool)
    requires pc.Commit? && PcAccount(pc, pc.m.f.id, ordered, cause)
    ensures StepAccount(x, Effect(c, x, pc, ch), pc.m.f.id, ordered, cause)
  {}

  lemma OtherAccount(c: Config, x: Stores, pc: PC, ch: Choice, ordered: bool, cause: bool)
    requires !pc.Idle? && !pc.Running? && !pc.LoadKey? && !pc.Commit? && PcAccount(pc, pc.m.f.id, ordered, cause)
    requires ordered ==> cause
    ensures StepAccount(x, Effect(c, x, pc, ch), pc.m.f.id, ordered, cause)
  {}

  /** An effect on another job does not touch the account. */
  lemma ForeignAccount(c: Config, x: Stores, pc: PC, ch: Choice, j: JobId, ordered: bool, cause: bool)
    requires pc.Idle? || pc.m.f.id != j
    ensures StepAccount(x, Effect(c, x, pc, ch), j, ordered, cause)
  {}

  lemma EffectAccounts(c: Config, s: State, w: WorkerId, ch: Choice, j: JobId, ordered: bool, cause: bool)
    requires Inv(c, s) && w in s.workers && Account(s, j, ordered, cause) && (ordered ==> cause)
    requires Known(s.x, j) && Rejected(c, s.x.h.accepted[j]) ==> cause
    requires FailsPolicy(c, s, Work(w, ch), j) ==> cause
    ensures StepAccount(s.x, Effect(c, s.x, s.workers[w].pc, ch), j, ordered, cause)
  {
    var pc := s.workers[w].pc;
    assert WorkerOK(c, s.x, s.workers[w]) && PcAccount(pc, j, ordered, cause);
    if pc.Idle? || pc.m.f.id != j {
      ForeignAccount(c, s.x, pc, ch, j, ordered, cause);
    } else if pc.Running? {
      RunAccount(c, s.x, pc, ch, ordered, cause);
    } else if pc.LoadKey? {
      JobAt(c, s.x, j);
      InputAccount(c, s.x, pc, ch, ordered, cause);
    } else if pc.Commit? {
      CommitAccount(c, s.x, pc, ch, ordered, cause);
    } else {
      OtherAccount(c, s.x, pc, ch, ordered, cause);
    }
  }

  lemma AfterAccount(s: State, w: WorkerId, o: Outcome, j: JobId, ordered: bool, cause: bool)
    requires w in s.workers && Account(s, j, ordered, cause) && StepAccount(s.x, o, j, ordered, cause)
    ensures Account(After(s, w, o), j, ordered, cause)
  {
    var s' := After(s, w, o);
    forall v | v in s'.workers ensures PcAccount(s'.workers[v].pc, j, ordered, cause) {
      if v != w { assert PcAccount(s.workers[v].pc, j, ordered, cause); }
    }
  }

  /** Any other action changes at most one worker, which then is at rest or takes up a job. */
  lemma BystanderAccount(c: Config, s: State, a: Action, j: JobId, ordered: bool, cause: bool)
    requires Enabled(c, s, a) && !a.Work? && Account(s, j, ordered, cause) && (OrdersFailure(s, a, j) ==> ordered)
    ensures Account(Apply(c, s, a), j, ordered, cause)
  {
    OnlyWorkWrites(c, s, a);
    var ws := Apply(c, s, a).workers;
    forall v | v in ws ensures PcAccount(ws[v].pc, j, ordered, cause) {
      if v in s.workers && ws[v] == s.workers[v] { assert PcAccount(s.workers[v].pc, j, ordered, cause); }
    }
  }

  lemma ActionAccount(c: Config, s: State, a: Action, j: JobId, ordered: bool, cause: bool)
    requires Inv(c, s) && Enabled(c, s, a) && Account(s, j, ordered, cause) && (ordered ==> cause)
    requires Known(s.x, j) && Rejected(c, s.x.h.accepted[j]) ==> cause
    requires (FailsPolicy(c, s, a, j) ==> cause) && (OrdersFailure(s, a, j) ==> ordered)
    ensures Account(Apply(c, s, a), j, ordered, cause)
  {
    if a.Work? {
      EffectAccounts(c, s, a.w, a.ch, j, ordered, cause);
      AfterAccount(s, a.w, Effect(c, s.x, s.workers[a.w].pc, a.ch), j, ordered, cause);
    } else {
      BystanderAccount(c, s, a, j, ordered, cause);
    }
  }

  // ----- over runs

  /** A cause for the failure of `j`, within the first i actions. */
  ghost predicate Cause(c: Config, states: seq<State>, acts: seq<Action>, i: nat, j: JobId, job: Job) {
    Rejected(c, job) || PolicyFailed(c, states, acts, i, j) || FailureOrdered(states, acts, i, j)
  }

  lemma AccountGrows(s: State, j: JobId, ordered: bool, cause: bool, ordered': bool, cause': bool)
    requires Account(s, j, ordered, cause) && (ordered ==> ordered') && (cause ==> cause')
    ensures Account(s, j, ordered', cause')
  {
    forall w | w in s.workers ensures PcAccount(s.workers[w].pc, j, ordered', cause') {
      assert PcAccount(s.workers[w].pc, j, ordered, cause);
    }
  }

  lemma {:induction false} RunAccounts(c: Config, states: seq<State>, acts: seq<Action>, i: nat, n: nat, j: JobId)
    requires Supported(c) && IsRun(c, states, acts) && i <= n < |states| && Known(states[n].x, j)
    ensures var job := states[n].x.h.accepted[j];
            Account(states[i], j, FailureOrdered(states, acts, i, j), Cause(c, states, acts, i, j, job))
  {
    if i > 0 {
      var job := states[n].x.h.accepted[j];
      RunAccounts(c, states, acts, i - 1, n, j);
      CausesGrow(c, states, acts, i - 1, j, job);
      AccountGrows(states[i - 1], j, FailureOrdered(states, acts, i - 1, j), Cause(c, states, acts, i - 1, j, job),
                   FailureOrdered(states, acts, i, j), Cause(c, states, acts, i, j, job));
      RunInv(c, states, acts, i - 1);
      RunGrows(c, states, acts, i - 1, n);
      StepAccounts(c, states, acts, i - 1, j, job);
    }
  }

  lemma CausesGrow(c: Config, states: seq<State>, acts: seq<Action>, i: nat, j: JobId, job: Job)
    ensures FailureOrdered(states, acts, i, j) ==> FailureOrdered(states, acts, i + 1, j)
    ensures Cause(c, states, acts, i, j, job) ==> Cause(c, states, acts, i + 1, j, job)
  {}

  lemma StepAccounts(c: Config, states: seq<State>, acts: seq<Action>, i: nat, j: JobId, job: Job)
    requires IsRun(c, states, acts) && i < |acts| && Inv(c, states[i])
    requires Known(states[i].x, j) ==> states[i].x.h.accepted[j] == job
    requires Account(states[i], j, FailureOrdered(states, acts, i + 1, j), Cause(c, states, acts, i + 1, j, job))
    ensures Account(states[i + 1], j, FailureOrdered(states, acts, i + 1, j), Cause(c, states, acts, i + 1, j, job))
  {
    assert Takes(c, states[i], acts[i], states[i + 1]);
    ActionAccount(c, states[i], acts[i], j,
                  FailureOrdered(states, acts, i + 1, j), Cause(c, states, acts, i + 1, j, job));
  }

  /** A FAILED row has a cause: an unknown type, an input the runner does not accept, a policy
      that could not be loaded while the job ran, or the order of the hook. */
  lemma FailedForCause(c: Config, states: seq<State>, acts: seq<Action>, i: nat, j: JobId)
    requires Supported(c) && IsRun(c, states, acts) && i < |states| && Known(states[i].x, j)
    requires FailedRow(states[i].x.p.rows, j)
    ensures var job := states[i].x.h.accepted[j];
            || TypeName(job.jobType) !in c.runners
            || c.runners[TypeName(job.jobType)].first(job.plain) == None
            || PolicyFailed(c, states, acts, i, j)
            || FailureOrdered(states, acts, i, j)
  {
    RunAccounts(c, states, acts, i, i, j);
  }

  lemma {:induction false} NoOrderWithoutHooks(c: Config, states: seq<State>, acts: seq<Action>, i: nat, j: JobId)
    requires IsRun(c, states, acts) && !c.hooks
    ensures !FailureOrdered(states, acts, i, j)
  {
    forall k | 0 <= k < i && k < |states| && k < |acts| ensures !OrdersFailure(states[k], acts[k], j) {
      assert Takes(c, states[k], acts[k], states[k + 1]);
    }
  }

  /** Without hooks a job of a known type with an accepted input is recorded as COMPLETED if at
      all, with what an uninterrupted run computes, and gets no dead letter, unless a policy
      could not be loaded. */
  lemma AcceptedJobCompletes(c: Config, states: seq<State>, acts: seq<Action>, i: nat, j: JobId)
    requires Supported(c) && !c.hooks && IsRun(c, states, acts) && i < |states| && Known(states[i].x, j)
    requires var job := states[i].x.h.accepted[j];
             TypeName(job.jobType) in c.runners && c.runners[TypeName(job.jobType)].first(job.plain).Some?
    requires !PolicyFailed(c, states, acts, i, j)
    ensures j in states[i].x.p.rows ==>
              && states[i].x.p.rows[j].state.Completed?
              && ValidOutput(c, PoliciesOf(states[i].x.p, states[i].x.h.accepted[j].tenant), states[i].x.h.accepted[j],
                             states[i].x.p.rows[j].body)
    ensures !Lettered(states[i].x.r.dlq, j)
  {
    NoOrderWithoutHooks(c, states, acts, i, j);
    if FailedRow(states[i].x.p.rows, j) { FailedForCause(c, states, acts, i, j); }
    OnlyCiphertextQueued(c, states, acts, i);
    ResumePreservesMeaning(c, states, acts, i, j);
  }
}
