/** Under exclusive claims nothing of an acknowledged job is left in Redis: no entry, and no
    checkpoint either. */
module Leftovers {
  import opened Protocol
  import opened ProtocolInvariant
  import opened ProtocolSteps
  import opened ProtocolExclusive
  import opened ProtocolTheorems
  import opened DeadLetters

  /** Whoever has a checkpoint has an entry. */
  ghost predicate CheckpointsQueued(x: Stores) { forall j :: j in x.r.mem ==> !Acked(x, j) }

  /** About to let the last entry of the job go. */
  ghost predicate Leaving(pc: PC) { pc.Finish? || pc.SettleForced? || (pc.Settle? && pc.seen >= 2) }

  ghost predicate Dropped(x: Stores, pc: PC) { Leaving(pc) ==> pc.m.f.id !in x.r.mem }

  ghost predicate Clean(s: State) {
    CheckpointsQueued(s.x) && forall w :: w in s.workers ==> Dropped(s.x, s.workers[w].pc)
  }

  /** The effect's own entry, as exclusive claims guarantee it. */
  ghost predicate Owns(x: Stores, pc: PC) {
    !pc.Idle? ==> pc.m.entry in x.r.stream && x.r.stream[pc.m.entry] == pc.m.f
  }

  /** What an effect may do to checkpoints and entries. */
  ghost predicate CleanOutcome(x: Stores, pc: PC, o: Outcome) {
    o.Go? ==>
      && CheckpointsQueued(o.x) && Dropped(o.x, o.pc)
      && forall j :: j in o.x.r.mem && (pc.Idle? || j != pc.m.f.id) ==> j in x.r.mem
  }

  lemma SaveClean(c: Config, x: Stores, pc: PC, ch: Choice)
    requires pc.SaveSet? && Owns(x, pc) && CheckpointsQueued(x)
    ensures CleanOutcome(x, pc, Effect(c, x, pc, ch))
  {
    assert !Acked(x, pc.m.f.id);
    forall j | j in x.r.mem ensures !Acked(x, j) {}
  }

  lemma PurgeClean(c: Config, x: Stores, pc: PC, ch: Choice)
    requires pc.PurgeDrop? && CheckpointsQueued(x)
    ensures CleanOutcome(x, pc, Effect(c, x, pc, ch))
  {}

  /** Letting the entry of a job without a checkpoint go. */
  lemma EntryDropped(x: Stores, y: Stores, m: Msg)
    requires CheckpointsQueued(x) && m.f.id !in x.r.mem && m.entry in x.r.stream && x.r.stream[m.entry] == m.f
    requires y.r.stream == x.r.stream - {m.entry} && y.r.mem == x.r.mem
    ensures CheckpointsQueued(y)
  {
    forall j | j in y.r.mem ensures !Acked(y, j) {
      assert !Acked(x, j);
      var e :| e in x.r.stream && x.r.stream[e].id == j;
      assert e in y.r.stream && y.r.stream[e].id == j;
    }
  }

  lemma LeaveClean(c: Config, x: Stores, pc: PC, ch: Choice)
    requires Leaving(pc) && Dropped(x, pc) && Owns(x, pc) && SettleAgrees(x.r, pc) && CheckpointsQueued(x)
    ensures CleanOutcome(x, pc, Effect(c, x, pc, ch))
  {
    if pc.Finish? { FinishIs(c, x, pc, ch); } else { BuryIs(c, x, pc, ch); }
    EntryDropped(x, Effect(c, x, pc, ch).x, pc.m);
  }

  lemma RequeueClean(c: Config, x: Stores, pc: PC, ch: Choice)
    requires pc.Settle? && pc.seen < 2 && Owns(x, pc) && SettleAgrees(x.r, pc) && CheckpointsQueued(x)
    requires forall e :: e in x.r.stream ==> e < x.r.nextEntry
    ensures CleanOutcome(x, pc, Effect(c, x, pc, ch))
  {
    RequeueIs(c, x, pc, ch);
    var y := WithRequeue(x, pc.m, pc.seen + 1);
    forall j | j in y.r.mem ensures !Acked(y, j) {
      assert !Acked(x, j);
      var e :| e in x.r.stream && x.r.stream[e].id == j;
      var f := if e == pc.m.entry then x.r.nextEntry else e;
      assert f in y.r.stream && y.r.stream[f].id == j;
    }
  }

  lemma OtherClean(c: Config, x: Stores, pc: PC, ch: Choice)
    requires !pc.SaveSet? && !pc.PurgeDrop? && !Leaving(pc) && !pc.Settle? && CheckpointsQueued(x)
    ensures CleanOutcome(x, pc, Effect(c, x, pc, ch))
  {
    if Effect(c, x, pc, ch).Go? {
      OtherStream(c, x, pc, ch);
      var y := Effect(c, x, pc, ch).x;
      forall j | j in y.r.mem ensures !Acked(y, j) { assert !Acked(x, j); }
    }
  }

  /** Any other effect leaves checkpoints and stream alone, and does not lead to letting go. */
  lemma OtherStream(c: Config, x: Stores, pc: PC, ch: Choice)
    requires !pc.SaveSet? && !pc.PurgeDrop? && !Leaving(pc) && !pc.Settle? && Effect(c, x, pc, ch).Go?
    ensures var o := Effect(c, x, pc, ch);
            o.x.r.mem == x.r.mem && o.x.r.stream == x.r.stream && !Leaving(o.pc)
  {}

  lemma EffectClean(c: Config, s: State, w: WorkerId, ch: Choice)
    requires Supported(c) && c.exclusive && Inv(c, s) && w in s.workers && Clean(s)
    ensures CleanOutcome(s.x, s.workers[w].pc, Effect(c, s.x, s.workers[w].pc, ch))
  {
    var pc := s.workers[w].pc;
    AgreesHere(c, s, w);
    if !pc.Idle? { OwnEntry(c, s, w); }
    assert Dropped(s.x, pc);
    if pc.SaveSet? { SaveClean(c, s.x, pc, ch); }
    else if pc.PurgeDrop? { PurgeClean(c, s.x, pc, ch); }
    else if Leaving(pc) { LeaveClean(c, s.x, pc, ch); }
    else if pc.Settle? { RequeueClean(c, s.x, pc, ch); }
    else { OtherClean(c, s.x, pc, ch); }
  }

  lemma OthersDropped(c: Config, s: State, w: WorkerId, o: Outcome, v: WorkerId)
    requires WorkersOK(c, s.x, s.workers) && Exclusive(s) && w in s.workers && v in s.workers && v != w
    requires CleanOutcome(s.x, s.workers[w].pc, o) && o.Go? && Dropped(s.x, s.workers[v].pc)
    ensures Dropped(o.x, s.workers[v].pc)
  {
    if !s.workers[v].pc.Idle? && !s.workers[w].pc.Idle? { OnlyOne(c, s, w, v); }
  }

  lemma WorkClean(c: Config, s: State, w: WorkerId, ch: Choice)
    requires Supported(c) && c.exclusive && Inv(c, s) && w in s.workers && Clean(s)
    ensures Clean(After(s, w, Effect(c, s.x, s.workers[w].pc, ch)))
  {
    EffectClean(c, s, w, ch);
    AfterClean(c, s, w, Effect(c, s.x, s.workers[w].pc, ch));
  }

  lemma AfterClean(c: Config, s: State, w: WorkerId, o: Outcome)
    requires WorkersOK(c, s.x, s.workers) && Exclusive(s) && w in s.workers && Clean(s)
    requires CleanOutcome(s.x, s.workers[w].pc, o)
    ensures Clean(After(s, w, o))
  {
    var s' := After(s, w, o);
    forall v | v in s'.workers ensures Dropped(s'.x, s'.workers[v].pc) {
      if v != w {
        assert Dropped(s.x, s.workers[v].pc);
        if o.Go? { OthersDropped(c, s, w, o, v); }
      }
    }
  }

  /** Other actions keep the checkpoints and take no entry away; the one worker that moves is at
      rest or takes up a job. */
  lemma BystanderClean(c: Config, s: State, a: Action)
    requires Enabled(c, s, a) && !a.Work? && Clean(s) && (forall e :: e in s.x.r.stream ==> e < s.x.r.nextEntry)
    ensures Clean(Apply(c, s, a))
  {
    var s' := Apply(c, s, a);
    forall j | j in s'.x.r.mem ensures !Acked(s'.x, j) {
      assert !Acked(s.x, j);
      var e :| e in s.x.r.stream && s.x.r.stream[e].id == j;
      assert e in s'.x.r.stream && s'.x.r.stream[e].id == j;
    }
    forall v | v in s'.workers ensures Dropped(s'.x, s'.workers[v].pc) {
      if v in s.workers && s'.workers[v] == s.workers[v] { assert Dropped(s.x, s.workers[v].pc); }
    }
  }

  lemma StepClean(c: Config, states: seq<State>, acts: seq<Action>, i: nat)
    requires Supported(c) && c.exclusive && IsRun(c, states, acts) && i < |acts| && Clean(states[i])
    ensures Clean(states[i + 1])
  {
    RunInv(c, states, acts, i);
    assert Takes(c, states[i], acts[i], states[i + 1]);
    if acts[i].Work? { WorkClean(c, states[i], acts[i].w, acts[i].ch); } else { BystanderClean(c, states[i], acts[i]); }
  }

  lemma {:induction false} RunClean(c: Config, states: seq<State>, acts: seq<Action>, i: nat)
    requires Supported(c) && c.exclusive && IsRun(c, states, acts) && i < |states|
    ensures Clean(states[i])
  {
    if i > 0 {
      RunClean(c, states, acts, i - 1);
      StepClean(c, states, acts, i - 1);
    }
  }

  /** Under exclusive claims an acknowledged job has no checkpoint, readable or not. */
  lemma NoCheckpointLeft(c: Config, states: seq<State>, acts: seq<Action>, i: nat, j: JobId)
    requires Supported(c) && c.exclusive && IsRun(c, states, acts) && i < |states| && Acked(states[i].x, j)
    ensures j !in states[i].x.r.mem
  {
    RunClean(c, states, acts, i);
  }
}
