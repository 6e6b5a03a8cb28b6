/**
  The exclusive-claim regime: at most one worker holds an entry. Then a job has at most one
  live entry, nobody else touches its counter or row, and the earlier look at the retry
  counter agrees with the settle script.
 */
module ProtocolExclusive {
  import opened Protocol
  import opened ProtocolInvariant
  import opened ProtocolSteps

  ghost predicate QueueOK(h: History, r: Redis) {
    && (forall e :: e in r.stream ==> r.stream[e].id in h.home && h.home[r.stream[e].id] == e)
    && (forall j :: j in r.retry ==> 1 <= r.retry[j] <= 2)
    && (forall j :: j in h.home ==> j in h.requeues && h.requeues[j] <= 2)
    && (forall j :: j in h.home && h.home[j] in r.stream ==> h.requeues[j] == RetryOf(r, j))
  }

  ghost predicate BeforeRecord(pc: PC) {
    || pc.LoadMem? || pc.MemInsert? || pc.MemSelect? || pc.LoadKey? || pc.Running?
    || pc.SaveInsert? || pc.SaveSelect? || pc.SaveSet? || pc.Peek? || pc.Commit?
  }

  ghost predicate InPurge(pc: PC) {
    pc.PurgeGet? || pc.PurgeInsert? || pc.PurgeGetAgain? || pc.PurgeDestroy? || pc.PurgeDrop?
  }

  /** What a worker knows of its job when nobody else works on it. */
  ghost predicate LocalOK(hasRow: bool, retries: int, pc: PC) {
    && (BeforeRecord(pc) ==> !hasRow)
    && ((pc.Commit? || InPurge(pc)) && pc.via.FailHook? ==> pc.via.seen == retries)
    && (pc.Settle? ==> pc.seen == retries && (pc.seen < 2 ==> !hasRow))
  }

  ghost predicate Local(x: Stores, pc: PC) {
    !pc.Idle? ==> LocalOK(pc.m.f.id in x.p.rows, RetryOf(x.r, pc.m.f.id), pc)
  }

  ghost predicate OneEach(k: Worker) {
    && (forall i, n :: 0 <= i < n < |k.batch| ==> k.batch[i].entry != k.batch[n].entry)
    && (!k.pc.Idle? ==> k.pc.m.entry !in Entries(k.batch))
  }

  ghost predicate HoldsOK(x: Stores, k: Worker) {
    Held(k) <= x.r.stream.Keys && OneEach(k) && Local(x, k.pc)
  }

  ghost predicate Apart(ws: map<WorkerId, Worker>) {
    forall v, w :: v in ws && w in ws && v != w ==> Held(ws[v]) !! Held(ws[w])
  }

  ghost predicate Exclusive(s: State) {
    && QueueOK(s.x.h, s.x.r) && Apart(s.workers)
    && forall w :: w in s.workers ==> HoldsOK(s.x, s.workers[w])
  }

  /** Two workers of different entries work on different jobs. */
  lemma DifferentJobs(x: Stores, m: Msg, n: Msg)
    requires QueueOK(x.h, x.r) && MsgOK(x, m) && MsgOK(x, n)
    requires m.entry in x.r.stream && n.entry in x.r.stream && m.entry != n.entry
    ensures m.f.id != n.f.id
  {}

  /** Outside job `j` the counters and rows are as before, and only `gone` left the stream. */
  ghost predicate Quiet(x: Stores, y: Stores, j: JobId, gone: set<EntryId>) {
    && (forall k :: k != j ==> (k in y.p.rows <==> k in x.p.rows) && RetryOf(y.r, k) == RetryOf(x.r, k))
    && x.r.stream.Keys - gone <= y.r.stream.Keys
  }

  lemma OtherHolds(x: Stores, y: Stores, k: Worker, j: JobId, gone: set<EntryId>)
    requires HoldsOK(x, k) && Quiet(x, y, j, gone) && Held(k) !! gone
    requires !k.pc.Idle? ==> k.pc.m.f.id != j
    ensures HoldsOK(y, k)
  {}

  lemma ApartShrinks(ws: map<WorkerId, Worker>, w: WorkerId, k: Worker)
    requires Apart(ws) && Held(k) <= (if w in ws then Held(ws[w]) else {})
    ensures Apart(ws[w := k])
  {
    var ws' := ws[w := k];
    forall u, v | u in ws' && v in ws' && u != v ensures Held(ws'[u]) !! Held(ws'[v]) {
      assert u in ws && v in ws ==> Held(ws[u]) !! Held(ws[v]);
    }
  }

  /** Worker `w` moves; what it still holds is fine and the rest of the world is quiet. */
  lemma OneMoves(c: Config, s: State, y: Stores, w: WorkerId, k: Worker, gone: set<EntryId>)
    requires Exclusive(s) && w in s.workers && !s.workers[w].pc.Idle?
    requires WorkersOK(c, s.x, s.workers)
    requires Quiet(s.x, y, s.workers[w].pc.m.f.id, gone) && gone <= {s.workers[w].pc.m.entry}
    requires QueueOK(y.h, y.r) && Held(k) <= Held(s.workers[w]) && HoldsOK(y, k)
    ensures Exclusive(State(y, s.workers[w := k]))
  {
    var ws := s.workers[w := k];
    var m := s.workers[w].pc.m;
    forall v | v in ws ensures HoldsOK(y, ws[v]) {
      if v != w {
        assert Held(s.workers[v]) !! Held(s.workers[w]);
        assert m.entry in Held(s.workers[w]);
        if !ws[v].pc.Idle? {
          assert ws[v].pc.m.entry in Held(s.workers[v]);
          DifferentJobs(s.x, m, ws[v].pc.m);
        }
        OtherHolds(s.x, y, ws[v], m.f.id, gone);
      }
    }
    ApartShrinks(s.workers, w, k);
  }

  // ----- what an effect does to its own job

  ghost predicate Final(pc: PC) { pc.Finish? || pc.SettleForced? || pc.Settle? }

  ghost predicate SameClaim(m: Msg, o: Outcome) { o.Go? ==> !o.pc.Idle? && o.pc.m == m && Local(o.x, o.pc) }

  lemma PurgeLocal(c: Config, x: Stores, pc: PC, ch: Choice)
    requires InPurge(pc) && Local(x, pc) && ViaOK(c, pc.via)
    ensures SameClaim(pc.m, Effect(c, x, pc, ch))
  {}

  lemma RunLocal(c: Config, x: Stores, pc: PC, ch: Choice)
    requires pc.Running? && Local(x, pc)
    ensures SameClaim(pc.m, Effect(c, x, pc, ch))
  {}

  lemma LoadLocal(c: Config, x: Stores, pc: PC, ch: Choice)
    requires pc.LoadRow? || pc.LoadMem? || pc.MemInsert? || pc.MemSelect? || pc.LoadKey?
    requires Local(x, pc)
    ensures SameClaim(pc.m, Effect(c, x, pc, ch))
  {}

  lemma SaveLocal(c: Config, x: Stores, pc: PC, ch: Choice)
    requires pc.SaveInsert? || pc.SaveSelect? || pc.SaveSet? || pc.Peek? || pc.Commit?
    requires Local(x, pc)
    ensures SameClaim(pc.m, Effect(c, x, pc, ch))
  {}

  lemma StaysQuiet(c: Config, x: Stores, pc: PC, ch: Choice)
    requires !pc.Idle? && !Final(pc)
    ensures var o := Effect(c, x, pc, ch);
            o.Go? ==> (o.x.h == x.h && o.x.r.stream == x.r.stream && o.x.r.retry == x.r.retry
                       && Quiet(x, o.x, pc.m.f.id, {}))
  {}

  lemma DropQuiet(x: Stores, m: Msg)
    requires QueueOK(x.h, x.r)
    ensures var y := WithRedis(x, Drop(x.r, m.entry)); QueueOK(y.h, y.r) && Quiet(x, y, m.f.id, {m.entry})
  {}

  lemma BuryQuiet(x: Stores, m: Msg)
    requires QueueOK(x.h, x.r) && MsgOK(x, m) && m.entry in x.r.stream
    ensures var y := WithRedis(x, Buried(x.r, m)); QueueOK(y.h, y.r) && Quiet(x, y, m.f.id, {m.entry})
  {}

  lemma RequeueQuiet(x: Stores, m: Msg, n: int)
    requires QueueOK(x.h, x.r) && MsgOK(x, m) && m.entry in x.r.stream && n == RetryOf(x.r, m.f.id) + 1 && n <= 2
    requires forall e :: e in x.r.stream ==> e < x.r.nextEntry
    requires forall j :: j in x.h.home ==> x.h.home[j] < x.r.nextEntry
    ensures var y := WithRequeue(x, m, n); QueueOK(y.h, y.r) && Quiet(x, y, m.f.id, {m.entry})
  {}

  // ----- the step of one worker

  /** All claims are valid and exclusive. */
  ghost predicate AllOK(c: Config, s: State) {
    && Shared(c, s.x) && Exclusive(s) && WorkersOK(c, s.x, s.workers)
  }

  lemma AgreesWhenExclusive(c: Config, s: State, w: WorkerId)
    requires AllOK(c, s) && w in s.workers
    ensures SettleAgrees(s.x.r, s.workers[w].pc)
  {
    assert HoldsOK(s.x, s.workers[w]);
  }

  lemma EffectLocal(c: Config, x: Stores, pc: PC, ch: Choice)
    requires !pc.Idle? && !Final(pc) && Local(x, pc) && (InPurge(pc) ==> ViaOK(c, pc.via))
    ensures SameClaim(pc.m, Effect(c, x, pc, ch))
  {
    if InPurge(pc) { PurgeLocal(c, x, pc, ch); }
    else if pc.Running? { RunLocal(c, x, pc, ch); }
    else if pc.LoadRow? || pc.LoadMem? || pc.MemInsert? || pc.MemSelect? || pc.LoadKey? { LoadLocal(c, x, pc, ch); }
    else { SaveLocal(c, x, pc, ch); }
  }

  lemma PurgeVia(c: Config, x: Stores, pc: PC)
    requires PcOK(c, x, pc) && InPurge(pc)
    ensures ViaOK(c, pc.via)
  {}

  lemma StillHeld(x: Stores, y: Stores, k: Worker, pc: PC)
    requires HoldsOK(x, k) && !k.pc.Idle? && !pc.Idle? && pc.m == k.pc.m && Local(y, pc) && x.r.stream == y.r.stream
    ensures HoldsOK(y, k.(pc := pc)) && Held(k.(pc := pc)) == Held(k)
  {}

  lemma NotFinalExclusive(c: Config, s: State, w: WorkerId, ch: Choice)
    requires AllOK(c, s) && w in s.workers && !s.workers[w].pc.Idle? && !Final(s.workers[w].pc)
    ensures var o := Effect(c, s.x, s.workers[w].pc, ch);
            o.Go? ==> Exclusive(After(s, w, o))
  {
    var k := s.workers[w];
    var o := Effect(c, s.x, k.pc, ch);
    assert HoldsOK(s.x, k) && WorkerOK(c, s.x, k);
    if InPurge(k.pc) { PurgeVia(c, s.x, k.pc); }
    EffectLocal(c, s.x, k.pc, ch);
    StaysQuiet(c, s.x, k.pc, ch);
    if o.Go? {
      StillHeld(s.x, o.x, k, o.pc);
      OneMoves(c, s, o.x, w, k.(pc := o.pc), {});
    }
  }

  /** Letting the entry go leaves the rest of the batch in the stream. */
  lemma RestHeld(x: Stores, y: Stores, k: Worker)
    requires HoldsOK(x, k) && !k.pc.Idle? && Quiet(x, y, k.pc.m.f.id, {k.pc.m.entry})
    ensures HoldsOK(y, k.(pc := Idle)) && Held(k.(pc := Idle)) <= Held(k)
  {}

  lemma LetGo(c: Config, s: State, y: Stores, w: WorkerId)
    requires AllOK(c, s) && w in s.workers && !s.workers[w].pc.Idle?
    requires QueueOK(y.h, y.r) && Quiet(s.x, y, s.workers[w].pc.m.f.id, {s.workers[w].pc.m.entry})
    ensures Exclusive(State(y, s.workers[w := s.workers[w].(pc := Idle)]))
  {
    assert HoldsOK(s.x, s.workers[w]);
    RestHeld(s.x, y, s.workers[w]);
    OneMoves(c, s, y, w, s.workers[w].(pc := Idle), {s.workers[w].pc.m.entry});
  }

  lemma FinishIs(c: Config, x: Stores, pc: PC, ch: Choice)
    requires pc.Finish?
    ensures Effect(c, x, pc, ch) == Go(WithRedis(x, Drop(x.r, pc.m.entry)), Idle)
  {}

  lemma BuryIs(c: Config, x: Stores, pc: PC, ch: Choice)
    requires pc.SettleForced? || (pc.Settle? && RetryOf(x.r, pc.m.f.id) >= 2)
    ensures Effect(c, x, pc, ch) == Go(WithRedis(x, Buried(x.r, pc.m)), Idle)
  {}

  lemma FinishExclusive(c: Config, s: State, w: WorkerId, ch: Choice)
    requires AllOK(c, s) && w in s.workers && s.workers[w].pc.Finish?
    ensures var o := Effect(c, s.x, s.workers[w].pc, ch);
            o.Go? && Exclusive(After(s, w, o))
  {
    var m := s.workers[w].pc.m;
    FinishIs(c, s.x, s.workers[w].pc, ch);
    DropQuiet(s.x, m);
    LetGo(c, s, WithRedis(s.x, Drop(s.x.r, m.entry)), w);
  }

  lemma BuryExclusive(c: Config, s: State, w: WorkerId, ch: Choice)
    requires AllOK(c, s) && w in s.workers
    requires s.workers[w].pc.SettleForced? || (s.workers[w].pc.Settle? && s.workers[w].pc.seen >= 2)
    ensures var o := Effect(c, s.x, s.workers[w].pc, ch);
            o.Go? && Exclusive(After(s, w, o))
  {
    var m := s.workers[w].pc.m;
    assert HoldsOK(s.x, s.workers[w]) && m.entry in Held(s.workers[w]) && WorkerOK(c, s.x, s.workers[w]);
    BuryIs(c, s.x, s.workers[w].pc, ch);
    BuryQuiet(s.x, m);
    LetGo(c, s, WithRedis(s.x, Buried(s.x.r, m)), w);
  }

  lemma RequeueExclusive(c: Config, s: State, w: WorkerId, ch: Choice)
    requires AllOK(c, s) && w in s.workers && s.workers[w].pc.Settle? && s.workers[w].pc.seen < 2
    ensures var o := Effect(c, s.x, s.workers[w].pc, ch);
            o.Go? && Exclusive(After(s, w, o))
  {
    var pc := s.workers[w].pc;
    assert HoldsOK(s.x, s.workers[w]) && pc.m.entry in Held(s.workers[w]) && WorkerOK(c, s.x, s.workers[w]);
    AgreesWhenExclusive(c, s, w);
    RequeueIs(c, s.x, pc, ch);
    RequeueQuiet(s.x, pc.m, pc.seen + 1);
    LetGo(c, s, WithRequeue(s.x, pc.m, pc.seen + 1), w);
  }

  lemma WorkExclusive(c: Config, s: State, w: WorkerId, ch: Choice)
    requires AllOK(c, s) && w in s.workers
    ensures Exclusive(After(s, w, Effect(c, s.x, s.workers[w].pc, ch)))
  {
    var pc := s.workers[w].pc;
    if pc.Idle? { assert s.workers[w := s.workers[w].(pc := Idle)] == s.workers; }
    else if Effect(c, s.x, pc, ch).Dead? { DieExclusive(c, s, w); }
    else if pc.Finish? { FinishExclusive(c, s, w, ch); }
    else if pc.Settle? && pc.seen < 2 { RequeueExclusive(c, s, w, ch); }
    else if Final(pc) { BuryExclusive(c, s, w, ch); }
    else { NotFinalExclusive(c, s, w, ch); }
  }

  lemma DieExclusive(c: Config, s: State, w: WorkerId)
    requires Exclusive(s)
    ensures Exclusive(s.(workers := s.workers[w := Worker([], Idle)]))
  {
    ApartShrinks(s.workers, w, Worker([], Idle));
  }

  lemma DispatchHolds(x: Stores, k: Worker, fail: bool)
    requires HoldsOK(x, k) && k.pc.Idle? && k.batch != []
    ensures var k' := Worker(k.batch[1..], LoadRow(k.batch[0], fail)); HoldsOK(x, k') && Held(k') <= Held(k)
  {
    assert k.batch[0].entry !in Entries(k.batch[1..]);
  }

  lemma DispatchExclusive(c: Config, s: State, w: WorkerId, fail: bool)
    requires Exclusive(s) && Enabled(c, s, Dispatch(w, fail))
    ensures Exclusive(Apply(c, s, Dispatch(w, fail)))
  {
    var k := s.workers[w];
    DispatchHolds(s.x, k, fail);
    ApartShrinks(s.workers, w, Worker(k.batch[1..], LoadRow(k.batch[0], fail)));
  }

  lemma ClaimExclusive(c: Config, s: State, w: WorkerId, ms: seq<Msg>, stolen: bool)
    requires Exclusive(s) && c.exclusive && Enabled(c, s, Claim(w, ms, stolen))
    ensures Exclusive(Apply(c, s, Claim(w, ms, stolen)))
  {
    var s' := Apply(c, s, Claim(w, ms, stolen));
    assert Held(Worker(ms, Idle)) == Entries(ms);
    forall u, v | u in s'.workers && v in s'.workers && u != v ensures Held(s'.workers[u]) !! Held(s'.workers[v]) {
      assert Held(s.workers[u]) !! Held(s.workers[v]);
    }
    forall v | v in s'.workers ensures HoldsOK(s'.x, s'.workers[v]) {
      assert HoldsOK(s.x, s.workers[v]);
    }
  }

  lemma AddQueue(x: Stores, j: JobId, job: Job)
    requires QueueOK(x.h, x.r) && j !in x.h.home && j !in x.r.retry
    requires forall e :: e in x.r.stream ==> e < x.r.nextEntry
    requires forall k :: k in x.h.home ==> x.h.home[k] < x.r.nextEntry
    ensures var y := WithJob(x, j, job); QueueOK(y.h, y.r)
  {}

  lemma AddExclusive(c: Config, s: State, j: JobId, job: Job)
    requires Exclusive(s) && Shared(c, s.x) && !Known(s.x, j)
    ensures Exclusive(s.(x := WithJob(s.x, j, job)))
  {
    AddQueue(s.x, j, job);
    AddHolds(s, WithJob(s.x, j, job));
  }

  lemma AddHolds(s: State, y: Stores)
    requires forall w :: w in s.workers ==> HoldsOK(s.x, s.workers[w])
    requires y.p == s.x.p && y.r.retry == s.x.r.retry && s.x.r.stream.Keys <= y.r.stream.Keys
    ensures forall w :: w in s.workers ==> HoldsOK(y, s.workers[w])
  {}
}
