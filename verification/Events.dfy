/**
  The log masker's event window: counters filled by the masking threads and emptied by one
  flusher, which posts a batch and puts it back if the post fails.
 */
module Events {
  import opened Basics

  type Time = int
  type Counts = map<string, int>

  function At(m: Counts, k: string): int { if k in m then m[k] else 0 }

  ghost predicate Natural(m: Counts) { forall k :: k in m ==> m[k] >= 0 }

  /** What one masked line adds. */
  datatype Masked = Masked(counts: Counts, held: bool, dropped: bool)

  datatype Window = Window(from: Time, counts: Counts, held: int, dropped: int)

  datatype Batch = Batch(from: Time, to: Time, counts: Counts, held: int, dropped: int, failOpen: int)

  function AddCounts(m: Counts, n: Counts): Counts { map k | k in m.Keys + n.Keys :: At(m, k) + At(n, k) }

  function Positive(m: Counts): Counts { map k | k in m && m[k] > 0 :: m[k] }

  function Added(w: Window, r: Masked): Window {
    Window(w.from, AddCounts(w.counts, r.counts), w.held + One(r.held), w.dropped + One(r.dropped))
  }

  function Batched(w: Window, to: Time, failOpen: int): Batch {
    Batch(w.from, to, Positive(w.counts), w.held, w.dropped, failOpen)
  }

  function Restored(w: Window, b: Batch): Window {
    Window(if w.from > b.from then b.from else w.from, AddCounts(w.counts, b.counts),
           w.held + b.held, w.dropped + b.dropped)
  }

  class WindowCounters {
    var from: Time
    var counts: Counts
    var held: int
    var dropped: int

    ghost function View(): Window reads this { Window(from, counts, held, dropped) }

    constructor (at: Time)
      ensures View() == Window(at, map[], 0, 0)
    {
      from, counts, held, dropped := at, map[], 0, 0;
    }

    /** The loop that both `Add` and `Restore` run over the incoming counts. */
    method Merge(n: Counts)
      modifies this`counts
      ensures counts == AddCounts(old(counts), n)
    {
      var left := n.Keys;
      while left != {}
        invariant left <= n.Keys && counts == AddCounts(old(counts), n - left)
        decreases left
      {
        var k :| k in left;
        MergeOne(old(counts), n, left, k);
        counts := counts[k := At(counts, k) + n[k]];
        left := left - {k};
      }
      assert n - left == n;
    }

    method Add(r: Masked)
      modifies this
      ensures View() == Added(old(View()), r)
    {
      Merge(r.counts);
      if r.held { held := held + 1; }
      if r.dropped { dropped := dropped + 1; }
    }

    method Take(to: Time, failOpen: int) returns (b: Batch)
      modifies this
      ensures b == Batched(old(View()), to, failOpen) && View() == Window(to, map[], 0, 0)
    {
      var kept: Counts := map[];
      var left := counts.Keys;
      while left != {}
        invariant View() == old(View()) && left <= counts.Keys && kept == Positive(counts - left)
        decreases left
      {
        var k :| k in left;
        PositiveOne(counts, left, k);
        if counts[k] > 0 { kept := kept[k := counts[k]]; }
        left := left - {k};
      }
      assert counts - left == counts;
      b := Batch(from, to, kept, held, dropped, failOpen);
      from, counts, held, dropped := to, map[], 0, 0;
    }

    method Restore(b: Batch)
      modifies this
      ensures View() == Restored(old(View()), b)
    {
      if from > b.from { from := b.from; }
      Merge(b.counts);
      held := held + b.held;
      dropped := dropped + b.dropped;
    }
  }

  lemma MergeOne(m: Counts, n: Counts, left: set<string>, k: string)
    requires left <= n.Keys && k in left
    ensures var c := AddCounts(m, n - left); c[k := At(c, k) + n[k]] == AddCounts(m, n - (left - {k}))
  {}

  lemma PositiveOne(m: Counts, left: set<string>, k: string)
    requires left <= m.Keys && k in left
    ensures var p := Positive(m - left); (if m[k] > 0 then p[k := m[k]] else p) == Positive(m - (left - {k}))
  {}

  // ----- one flusher among the masking threads

  datatype Flusher =
    | Idle
    | Swapped(failOpen: int)
    | Posting(batch: Batch)
    | Restoring(batch: Batch)
    | Refunding(failOpen: int)

  /** A batch that left the window for good: delivered, or lost before it could be posted. */
  datatype Sent = Sent(batch: Batch, delivered: bool)

  datatype State = State(window: Window, failOpen: int, now: Time, flusher: Flusher, log: seq<Sent>)

  datatype Action =
    | Record(r: Masked)
    | FailOpen
    | Tick(d: nat)
    | Swap
    | Take
    | Delivered
    | Rejected
    | Aborted
    | Restore
    | Refund

  ghost predicate Enabled(s: State, a: Action) {
    match a
    case Record(r) => Natural(r.counts)
    case FailOpen => true
    case Tick(_) => true
    case Swap => s.flusher.Idle?
    case Take => s.flusher.Swapped?
    case Delivered => s.flusher.Posting?
    case Rejected => s.flusher.Posting?
    case Aborted => s.flusher.Posting?
    case Restore => s.flusher.Restoring?
    case Refund => s.flusher.Refunding?
  }

  function Apply(s: State, a: Action): State
    requires Enabled(s, a)
  {
    match a
    case Record(r) => s.(window := Added(s.window, r))
    case FailOpen => s.(failOpen := s.failOpen + 1)
    case Tick(d) => s.(now := s.now + d)
    case Swap => s.(failOpen := 0, flusher := Swapped(s.failOpen))
    case Take =>
      s.(flusher := Posting(Batched(s.window, s.now, s.flusher.failOpen)), window := Window(s.now, map[], 0, 0))
    case Delivered => s.(log := s.log + [Sent(s.flusher.batch, true)], flusher := Idle)
    case Rejected => s.(flusher := Restoring(s.flusher.batch))
    case Aborted => s.(log := s.log + [Sent(s.flusher.batch, false)], flusher := Idle)
    case Restore =>
      s.(window := Restored(s.window, s.flusher.batch), flusher := Refunding(s.flusher.batch.failOpen))
    case Refund => s.(failOpen := s.failOpen + s.flusher.failOpen, flusher := Idle)
  }

  function Start(at: Time): State { State(Window(at, map[], 0, 0), 0, at, Idle, []) }

  ghost predicate IsRun(at: Time, states: seq<State>, acts: seq<Action>) {
    && |states| == |acts| + 1 && states[0] == Start(at)
    && forall i :: 0 <= i < |acts| ==> Enabled(states[i], acts[i]) && states[i + 1] == Apply(states[i], acts[i])
  }

  // ----- conservation

  /** Everything that is counted. */
  datatype Counter = Kind(k: string) | Held | Dropped | Opened

  function InMasked(r: Masked, c: Counter): int {
    match c
    case Kind(k) => At(r.counts, k)
    case Held => One(r.held)
    case Dropped => One(r.dropped)
    case Opened => 0
  }

  function InWindow(w: Window, c: Counter): int {
    match c
    case Kind(k) => At(w.counts, k)
    case Held => w.held
    case Dropped => w.dropped
    case Opened => 0
  }

  function InBatch(b: Batch, c: Counter): int {
    match c
    case Kind(k) => At(b.counts, k)
    case Held => b.held
    case Dropped => b.dropped
    case Opened => b.failOpen
  }

  function InFlight(f: Flusher, c: Counter): int {
    match f
    case Idle => 0
    case Swapped(n) => if c.Opened? then n else 0
    case Posting(b) => InBatch(b, c)
    case Restoring(b) => InBatch(b, c)
    case Refunding(n) => if c.Opened? then n else 0
  }

  function InLog(log: seq<Sent>, delivered: bool, c: Counter): int {
    if log == [] then 0
    else
      var last := log[|log| - 1];
      InLog(log[..|log| - 1], delivered, c) + if last.delivered == delivered then InBatch(last.batch, c) else 0
  }

  /** What an action records. */
  function Gain(a: Action, c: Counter): int {
    match a
    case Record(r) => InMasked(r, c)
    case FailOpen => if c.Opened? then 1 else 0
    case _ => 0
  }

  function Recorded(acts: seq<Action>, c: Counter): int {
    if acts == [] then 0 else Recorded(acts[..|acts| - 1], c) + Gain(acts[|acts| - 1], c)
  }

  function Kept(s: State, c: Counter): int {
    InWindow(s.window, c) + InFlight(s.flusher, c) + if c.Opened? then s.failOpen else 0
  }

  function Balance(s: State, c: Counter): int { InLog(s.log, true, c) + InLog(s.log, false, c) + Kept(s, c) }

  lemma LogSnoc(log: seq<Sent>, x: Sent, delivered: bool, c: Counter)
    ensures InLog(log + [x], delivered, c)
            == InLog(log, delivered, c) + if x.delivered == delivered then InBatch(x.batch, c) else 0
  {
    assert (log + [x])[..|log|] == log;
  }

  lemma StepBalance(s: State, a: Action, c: Counter)
    requires Enabled(s, a) && Natural(s.window.counts)
    ensures Balance(Apply(s, a), c) == Balance(s, c) + Gain(a, c)
  {
    match a {
      case Delivered =>
        LogSnoc(s.log, Sent(s.flusher.batch, true), true, c);
        LogSnoc(s.log, Sent(s.flusher.batch, true), false, c);
      case Aborted =>
        LogSnoc(s.log, Sent(s.flusher.batch, false), true, c);
        LogSnoc(s.log, Sent(s.flusher.batch, false), false, c);
      case _ =>
    }
  }

  // ----- windows

  ghost predicate Adjacent(log: seq<Sent>) {
    forall i :: 0 <= i < |log| - 1 ==> log[i].batch.to == log[i + 1].batch.from
  }

  /** Where the next batch to leave will start. */
  function Edge(s: State): Time {
    if s.flusher.Posting? || s.flusher.Restoring? then s.flusher.batch.from else s.window.from
  }

  ghost predicate FlusherOK(s: State) {
    match s.flusher
    case Posting(b) => Natural(b.counts) && b.from <= b.to == s.window.from
    case Restoring(b) => Natural(b.counts) && b.from <= b.to == s.window.from
    case _ => true
  }

  ghost predicate Inv(at: Time, s: State) {
    && Natural(s.window.counts) && s.window.from <= s.now && FlusherOK(s)
    && Adjacent(s.log)
    && (forall i :: 0 <= i < |s.log| ==> s.log[i].batch.from <= s.log[i].batch.to)
    && Edge(s) == (if s.log == [] then at else s.log[|s.log| - 1].batch.to)
    && (s.log != [] ==> s.log[0].batch.from == at)
  }

  lemma StepKeeps(at: Time, s: State, a: Action)
    requires Inv(at, s) && Enabled(s, a)
    ensures Inv(at, Apply(s, a))
  {
  }

  lemma {:induction false} RunInv(at: Time, states: seq<State>, acts: seq<Action>, i: nat)
    requires IsRun(at, states, acts) && i < |states|
    ensures Inv(at, states[i])
  {
    if i > 0 {
      RunInv(at, states, acts, i - 1);
      assert Enabled(states[i - 1], acts[i - 1]) && states[i - 1 + 1] == Apply(states[i - 1], acts[i - 1]);
      StepKeeps(at, states[i - 1], acts[i - 1]);
    }
  }

  /** Everything recorded is delivered, still in the window or in flight, or was in a batch
      that could not be turned into a request. */
  lemma {:induction false} Conservation(at: Time, states: seq<State>, acts: seq<Action>, i: nat, c: Counter)
    requires IsRun(at, states, acts) && i < |states|
    ensures var s := states[i];
            Recorded(acts[..i], c) == InLog(s.log, true, c) + InLog(s.log, false, c) + Kept(s, c)
  {
    if i > 0 {
      Conservation(at, states, acts, i - 1, c);
      RunInv(at, states, acts, i - 1);
      assert Enabled(states[i - 1], acts[i - 1]) && states[i - 1 + 1] == Apply(states[i - 1], acts[i - 1]);
      StepBalance(states[i - 1], acts[i - 1], c);
      assert acts[..i][..i - 1] == acts[..i - 1];
    }
  }

  ghost predicate AllDelivered(log: seq<Sent>, c: Counter) {
    (forall k :: 0 <= k < |log| ==> log[k].delivered) && InLog(log, false, c) == 0
  }

  lemma StepDelivered(s: State, a: Action, c: Counter)
    requires Enabled(s, a) && !a.Aborted? && AllDelivered(s.log, c)
    ensures AllDelivered(Apply(s, a).log, c)
  {
    if a.Delivered? { DeliveredSnoc(s.log, Sent(s.flusher.batch, true), c); }
  }

  lemma DeliveredSnoc(log: seq<Sent>, x: Sent, c: Counter)
    requires AllDelivered(log, c) && x.delivered
    ensures AllDelivered(log + [x], c)
  {
    LogSnoc(log, x, false, c);
  }

  /** Without an aborted flush nothing is lost. */
  lemma {:induction false} NothingLost(at: Time, states: seq<State>, acts: seq<Action>, i: nat, c: Counter)
    requires IsRun(at, states, acts) && i < |states| && Aborted !in acts
    ensures AllDelivered(states[i].log, c)
  {
    if i > 0 {
      NothingLost(at, states, acts, i - 1, c);
      assert Enabled(states[i - 1], acts[i - 1]) && states[i - 1 + 1] == Apply(states[i - 1], acts[i - 1]);
      assert acts[i - 1] in acts;
      StepDelivered(states[i - 1], acts[i - 1], c);
    }
  }

  /** The windows that left tile the time since the start, each beginning where the one before
      it ended; without an aborted flush they are exactly the delivered ones. */
  lemma WindowsTile(at: Time, states: seq<State>, acts: seq<Action>, i: nat)
    requires IsRun(at, states, acts) && i < |states|
    ensures var s := states[i];
            && (forall k :: 0 <= k < |s.log| ==> s.log[k].batch.from <= s.log[k].batch.to)
            && (forall k :: 0 <= k < |s.log| - 1 ==> s.log[k].batch.to == s.log[k + 1].batch.from)
            && (s.log != [] ==> s.log[0].batch.from == at && s.log[|s.log| - 1].batch.to == Edge(s))
            && (Aborted !in acts ==> forall k :: 0 <= k < |s.log| ==> s.log[k].delivered)
  {
    RunInv(at, states, acts, i);
    if Aborted !in acts { NothingLost(at, states, acts, i, Held); }
  }

  /** The batch was taken out of the window at action k, and ends at the clock of that moment. */
  ghost predicate TakenAt(states: seq<State>, acts: seq<Action>, k: int, b: Batch) {
    && 0 <= k < |acts| && k < |states| && acts[k].Take? && b.to == states[k].now && b.from == states[k].window.from
  }

  ghost predicate HasTake(states: seq<State>, acts: seq<Action>, i: nat, b: Batch) {
    exists k :: k < i && TakenAt(states, acts, k, b)
  }

  /** Every batch in flight or gone was taken at some moment, and ends with it. */
  lemma {:induction false} BatchesEndAtTheirTake(at: Time, states: seq<State>, acts: seq<Action>, i: nat)
    requires IsRun(at, states, acts) && i < |states|
    ensures states[i].flusher.Posting? || states[i].flusher.Restoring? ==>
              HasTake(states, acts, i, states[i].flusher.batch)
    ensures forall m :: 0 <= m < |states[i].log| ==> HasTake(states, acts, i, states[i].log[m].batch)
  {
    if i > 0 {
      BatchesEndAtTheirTake(at, states, acts, i - 1);
      var s, a := states[i - 1], acts[i - 1];
      assert Enabled(s, a) && states[i - 1 + 1] == Apply(s, a);
      if a.Take? {
        assert TakenAt(states, acts, i - 1, states[i].flusher.batch);
      } else if states[i].flusher.Posting? || states[i].flusher.Restoring? {
        TakeStays(states, acts, i - 1, states[i].flusher.batch);
      }
      forall m | 0 <= m < |states[i].log| ensures HasTake(states, acts, i, states[i].log[m].batch) {
        TakeStays(states, acts, i - 1, states[i].log[m].batch);
      }
    }
  }

  lemma TakeStays(states: seq<State>, acts: seq<Action>, i: nat, b: Batch)
    requires HasTake(states, acts, i, b)
    ensures HasTake(states, acts, i + 1, b)
  {
    var k :| k < i && TakenAt(states, acts, k, b);
    assert k < i + 1 && TakenAt(states, acts, k, b);
  }
}
