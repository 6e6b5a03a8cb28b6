/** The settle script on raw fields does what the protocol's settle steps do on jobs. */
module SettleRefines {
  import opened Basics
  import opened Settle
  import P = Protocol
  import I = ProtocolInvariant
  import T = ProtocolTheorems

  function Field(m: map<string, string>, k: string): string { if k in m then m[k] else "" }

  /** How a field map reads; `enc` is the text of a value. */
  ghost predicate ReadsAs(enc: P.Value -> string, m: map<string, string>, f: P.Fields) {
    && Field(m, "id") == f.id && Field(m, "tenant_id") == f.tenant && Field(m, "job_type") == f.jobType
    && Field(m, "input") == enc(f.input)
  }

  ghost predicate ReadsDead(m: map<string, string>, d: P.DeadLetter) {
    Field(m, "id") == d.id && Field(m, "tenant_id") == d.tenant && Field(m, "job_type") == d.jobType && "input" !in m
  }

  function RetryKey(j: string): string { "retry:" + j }

  lemma RetryKeyInjective(j: string, k: string)
    requires RetryKey(j) == RetryKey(k)
    ensures j == k
  {
    assert RetryKey(j)[6..] == j && RetryKey(k)[6..] == k;
  }

  ghost predicate StreamReads(enc: P.Value -> string, s: map<EntryId, seq<string>>, t: map<P.EntryId, P.Fields>) {
    s.Keys == t.Keys && forall e :: e in t ==> ReadsAs(enc, Pairs(s[e]), t[e])
  }

  ghost predicate DlqReads(s: seq<seq<string>>, t: seq<P.DeadLetter>) {
    |s| == |t| && forall i :: 0 <= i < |s| ==> ReadsDead(Pairs(s[i]), t[i])
  }

  ghost predicate RetryReads(s: map<string, int>, t: map<P.JobId, int>) {
    forall j :: Get(s, RetryKey(j)) == Get(t, j)
  }

  ghost predicate Reads(enc: P.Value -> string, v: View, r: P.Redis) {
    && StreamReads(enc, v.stream, r.stream) && v.nextEntry == r.nextEntry && v.pending == r.pending
    && DlqReads(v.dlq, r.dlq) && RetryReads(v.retry, r.retry)
  }

  lemma RetryDropped(s: map<string, int>, t: map<P.JobId, int>, j: P.JobId)
    requires RetryReads(s, t)
    ensures RetryReads(s - {RetryKey(j)}, t - {j})
  {
    forall k ensures Get(s - {RetryKey(j)}, RetryKey(k)) == Get(t - {j}, k) {
      assert Get(s, RetryKey(k)) == Get(t, k);
      if k != j && RetryKey(k) == RetryKey(j) { RetryKeyInjective(j, k); }
    }
  }

  lemma RetryUpdated(s: map<string, int>, t: map<P.JobId, int>, j: P.JobId, n: int)
    requires RetryReads(s, t)
    ensures RetryReads(s[RetryKey(j) := n], t[j := n])
  {
    forall k ensures Get(s[RetryKey(j) := n], RetryKey(k)) == Get(t[j := n], k) {
      assert Get(s, RetryKey(k)) == Get(t, k);
      if k != j && RetryKey(k) == RetryKey(j) { RetryKeyInjective(j, k); }
    }
  }

  lemma BurialReads(enc: P.Value -> string, args: seq<string>, f: P.Fields)
    requires ReadsAs(enc, Pairs(args), f) && f.id != ""
    ensures WithoutInput(args) != [] && ReadsDead(Pairs(WithoutInput(args)), P.DeadOf(f))
  {
    OnlyInputDropped(args);
    assert "id" in Pairs(args) && "id" in Pairs(args) - {"input"};
    assert Pairs([]) == map[];
  }

  lemma BuryRefines(enc: P.Value -> string, v: View, r: P.Redis, m: P.Msg, args: seq<string>)
    requires Reads(enc, v, r) && ReadsAs(enc, Pairs(args), m.f) && m.f.id != ""
    ensures Reads(enc, AfterBury(v, RetryKey(m.f.id), m.entry, args), P.Buried(r, m))
  {
    BurialReads(enc, args, m.f);
    RetryDropped(v.retry, r.retry, m.f.id);
  }

  lemma StreamUpdated(enc: P.Value -> string, s: map<EntryId, seq<string>>, t: map<P.EntryId, P.Fields>, e: EntryId,
                      next: EntryId,
                      args: seq<string>, f: P.Fields)
    requires StreamReads(enc, s, t) && ReadsAs(enc, Pairs(args), f) && e != next
    ensures StreamReads(enc, s[next := args] - {e}, (t - {e})[next := f])
  {}

  lemma RetryRefines(enc: P.Value -> string, v: View, r: P.Redis, m: P.Msg, args: seq<string>)
    requires Reads(enc, v, r) && ReadsAs(enc, Pairs(args), m.f) && m.entry != r.nextEntry
    ensures Reads(enc, AfterRetry(v, RetryKey(m.f.id), m.entry, args), P.Requeued(r, m, Attempt(Get(r.retry, m.f.id))))
  {
    assert Get(v.retry, RetryKey(m.f.id)) == Get(r.retry, m.f.id);
    StreamUpdated(enc, v.stream, r.stream, m.entry, r.nextEntry, args, m.f);
    RetryUpdated(v.retry, r.retry, m.f.id, Attempt(Get(r.retry, m.f.id)));
  }

  /** Both sides count the same attempt and branch on it alike. */
  lemma SameBranch(v: View, x: P.Stores, m: P.Msg, args: seq<string>)
    requires Get(v.retry, RetryKey(m.f.id)) == Get(x.r.retry, m.f.id)
    ensures P.SettleScript(x, m).Go?
    ensures var n := Attempt(Get(x.r.retry, m.f.id));
            var after, r := Settled(v, RetryKey(m.f.id), m.entry, false, args).0, P.SettleScript(x, m).x.r;
            && (n < 3 ==> after == AfterRetry(v, RetryKey(m.f.id), m.entry, args) && r == P.Requeued(x.r, m, n))
            && (n >= 3 ==> after == AfterBury(v, RetryKey(m.f.id), m.entry, args) && r == P.Buried(x.r, m))
  {}

  /** Whatever order the fields arrive in, the script takes related states to related states:
      forced, it is the protocol's burial; otherwise its retry-or-bury step. */
  lemma SettleRefinesProtocol(enc: P.Value -> string, v: View, x: P.Stores, m: P.Msg, args: seq<string>)
    requires Reads(enc, v, x.r) && ReadsAs(enc, Pairs(args), m.f) && m.f.id != "" && m.entry != x.r.nextEntry
    ensures P.SettleScript(x, m).Go?
    ensures Reads(enc, Settled(v, RetryKey(m.f.id), m.entry, false, args).0, P.SettleScript(x, m).x.r)
    ensures Reads(enc, Settled(v, RetryKey(m.f.id), m.entry, true, args).0, P.Buried(x.r, m))
  {
    SameBranch(v, x, m, args);
    BuryRefines(enc, v, x.r, m, args);
    if Attempt(Get(x.r.retry, m.f.id)) < 3 { RetryRefines(enc, v, x.r, m, args); }
  }

  lemma Settlement(c: P.Config, x: P.Stores, pc: P.PC, ch: P.Choice)
    requires pc.Settle? || pc.SettleForced?
    ensures P.Effect(c, x, pc, ch).Go?
    ensures P.Effect(c, x, pc, ch).x.r == if pc.Settle? then P.SettleScript(x, pc.m).x.r else P.Buried(x.r, pc.m)
  {}

  lemma SettlerMessage(c: P.Config, s: P.State, w: P.WorkerId)
    requires T.Inv(c, s) && w in s.workers && !s.workers[w].pc.Idle?
    ensures s.workers[w].pc.m.f.id != "" && s.workers[w].pc.m.entry < s.x.r.nextEntry
  {
    assert I.WorkerOK(c, s.x, s.workers[w]);
  }

  /** In every reachable state, the script run by a worker about to settle is the worker's step. */
  lemma SettleRefinesRun(enc: P.Value -> string, v: View, c: P.Config, states: seq<P.State>, acts: seq<P.Action>,
                         i: nat,
                         w: P.WorkerId, args: seq<string>, ch: P.Choice)
    requires T.Supported(c) && P.IsRun(c, states, acts) && i < |states| && w in states[i].workers
    requires states[i].workers[w].pc.Settle? || states[i].workers[w].pc.SettleForced?
    requires Reads(enc, v, states[i].x.r) && ReadsAs(enc, Pairs(args), states[i].workers[w].pc.m.f)
    ensures var x, pc := states[i].x, states[i].workers[w].pc;
            && P.Effect(c, x, pc, ch).Go?
            && var after := Settled(v, RetryKey(pc.m.f.id), pc.m.entry, pc.SettleForced?, args).0;
               Reads(enc, after, P.Effect(c, x, pc, ch).x.r)
  {
    var x, pc := states[i].x, states[i].workers[w].pc;
    T.RunInv(c, states, acts, i);
    SettlerMessage(c, states[i], w);
    SettleRefinesProtocol(enc, v, x, pc.m, args);
    Settlement(c, x, pc, ch);
  }

  // ----- the raw queue beside the run

  ghost predicate SettleOf(enc: P.Value -> string, pc: P.PC, args: seq<string>, v: View, v': View)
    requires pc.Settle? || pc.SettleForced?
  {
    && ReadsAs(enc, Pairs(args), pc.m.f)
    && v' == Settled(v, RetryKey(pc.m.f.id), pc.m.entry, pc.SettleForced?, args).0
  }

  ghost predicate AddOf(enc: P.Value -> string, j: P.JobId, job: P.Job, args: seq<string>, v: View, v': View) {
    && ReadsAs(enc, Pairs(args), P.FieldsOf(j, job))
    && v' == v.(stream := v.stream[v.nextEntry := args], nextEntry := v.nextEntry + 1)
  }

  ghost predicate WorkFollows(enc: P.Value -> string, pc: P.PC, v: View, v': View) {
    if pc.Settle? || pc.SettleForced? then exists args :: SettleOf(enc, pc, args, v, v')
    else if pc.Finish? then v' == Dropped(v, pc.m.entry)
    else v' == v
  }

  /** What the raw keys do while the protocol takes an action: enqueueing adds an entry, claiming
      marks entries pending, finishing drops one, and settling runs the script. */
  ghost predicate QueueFollows(enc: P.Value -> string, st: P.State, act: P.Action, v: View, v': View) {
    match act
    case AddEntry(j, job) => exists args :: AddOf(enc, j, job, args, v, v')
    case Claim(_, ms, _) => v' == v.(pending := v.pending + P.Entries(ms))
    case Work(w, _) => w in st.workers && WorkFollows(enc, st.workers[w].pc, v, v')
    case _ => v' == v
  }

  /** The parts of Redis that the raw keys stand for. */
  ghost predicate SameQueue(r: P.Redis, r': P.Redis) {
    && r'.stream == r.stream && r'.nextEntry == r.nextEntry && r'.pending == r.pending
    && r'.dlq == r.dlq && r'.retry == r.retry
  }

  lemma OtherEffectsQuiet(c: P.Config, x: P.Stores, pc: P.PC, ch: P.Choice)
    requires !pc.Settle? && !pc.SettleForced? && !pc.Finish? && P.Effect(c, x, pc, ch).Go?
    ensures SameQueue(x.r, P.Effect(c, x, pc, ch).x.r)
  {}

  lemma FinishRefines(enc: P.Value -> string, v: View, r: P.Redis, e: EntryId)
    requires Reads(enc, v, r)
    ensures Reads(enc, Dropped(v, e), P.Drop(r, e))
  {}

  lemma AddRefines(enc: P.Value -> string, v: View, x: P.Stores, j: P.JobId, job: P.Job, args: seq<string>, v': View)
    requires Reads(enc, v, x.r) && AddOf(enc, j, job, args, v, v')
    ensures Reads(enc, v', P.WithJob(x, j, job).r)
  {}

  lemma WorkReads(enc: P.Value -> string, v: View, v': View, c: P.Config, states: seq<P.State>, acts: seq<P.Action>,
                  i: nat,
                  w: P.WorkerId, ch: P.Choice)
    requires T.Supported(c) && P.IsRun(c, states, acts) && i < |states| && w in states[i].workers
    requires Reads(enc, v, states[i].x.r) && WorkFollows(enc, states[i].workers[w].pc, v, v')
    ensures Reads(enc, v', P.After(states[i], w, P.Effect(c, states[i].x, states[i].workers[w].pc, ch)).x.r)
  {
    var x, pc := states[i].x, states[i].workers[w].pc;
    if pc.Settle? || pc.SettleForced? {
      var args :| SettleOf(enc, pc, args, v, v');
      SettleRefinesRun(enc, v, c, states, acts, i, w, args, ch);
    } else if pc.Finish? {
      FinishRefines(enc, v, x.r, pc.m.entry);
    } else if P.Effect(c, x, pc, ch).Go? {
      OtherEffectsQuiet(c, x, pc, ch);
    }
  }

  /** A run of the protocol with the raw keys beside it, from nothing. */
  ghost predicate Beside(enc: P.Value -> string, c: P.Config, states: seq<P.State>, acts: seq<P.Action>,
                         views: seq<View>) {
    && P.IsRun(c, states, acts) && |views| == |states| && views[0] == View(map[], map[], 0, {}, [])
    && forall i :: 0 <= i < |acts| ==> QueueFollows(enc, states[i], acts[i], views[i], views[i + 1])
  }

  lemma StepReads(enc: P.Value -> string, c: P.Config, states: seq<P.State>, acts: seq<P.Action>, views: seq<View>,
                  i: nat)
    requires T.Supported(c) && Beside(enc, c, states, acts, views) && i < |acts| && Reads(enc, views[i], states[i].x.r)
    ensures Reads(enc, views[i + 1], states[i + 1].x.r)
  {
    assert P.Takes(c, states[i], acts[i], states[i + 1]);
    assert QueueFollows(enc, states[i], acts[i], views[i], views[i + 1]);
    match acts[i]
    case Work(w, ch) => WorkReads(enc, views[i], views[i + 1], c, states, acts, i, w, ch);
    case AddEntry(j, job) =>
      var args :| AddOf(enc, j, job, args, views[i], views[i + 1]);
      AddRefines(enc, views[i], states[i].x, j, job, args, views[i + 1]);
    case _ =>
  }

  /** Along every such run the raw stream, dead letters and counters read as the protocol's. */
  lemma {:induction false} QueueReads(enc: P.Value -> string, c: P.Config, states: seq<P.State>, acts: seq<P.Action>,
                                      views: seq<View>, i: nat)
    requires T.Supported(c) && Beside(enc, c, states, acts, views) && i < |states|
    ensures Reads(enc, views[i], states[i].x.r)
  {
    if i > 0 {
      QueueReads(enc, c, states, acts, views, i - 1);
      StepReads(enc, c, states, acts, views, i - 1);
    }
  }

  /** In the raw fields along every run: an entry's input is the text of its job's sealed input,
      and a dead letter has no input at all. */
  lemma NoPlaintextQueued(enc: P.Value -> string, c: P.Config, states: seq<P.State>, acts: seq<P.Action>,
                          views: seq<View>, i: nat)
    requires T.Supported(c) && Beside(enc, c, states, acts, views) && i < |states|
    ensures forall e :: e in views[i].stream ==>
              var fields := Pairs(views[i].stream[e]);
              && Field(fields, "id") in states[i].x.h.accepted
              && var job := states[i].x.h.accepted[Field(fields, "id")];
                 Field(fields, "input") == enc(P.Sealed(job.key, job.plain))
    ensures forall k :: 0 <= k < |views[i].dlq| ==> "input" !in Pairs(views[i].dlq[k])
  {
    QueueReads(enc, c, states, acts, views, i);
    T.OnlyCiphertextQueued(c, states, acts, i);
    var v, r := views[i], states[i].x.r;
    forall k | 0 <= k < |v.dlq| ensures "input" !in Pairs(v.dlq[k]) { assert ReadsDead(Pairs(v.dlq[k]), r.dlq[k]); }
    forall e | e in v.stream
      ensures var fields := Pairs(v.stream[e]);
              && Field(fields, "id") in states[i].x.h.accepted
              && var job := states[i].x.h.accepted[Field(fields, "id")];
                 Field(fields, "input") == enc(P.Sealed(job.key, job.plain))
    {
      assert ReadsAs(enc, Pairs(v.stream[e]), r.stream[e]) && T.OwnCiphertext(states[i].x, r.stream[e]);
    }
  }
}
