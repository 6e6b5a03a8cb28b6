/**
  The log masker's hand-off: one reader, one posting loop and one-second timers share a
  circuit breaker. Every load, store, swap, channel operation and post is one step.
 */
module Breaker {
  import opened Basics

  const QUEUE_CAP := 1000
  const LIMIT := 5
  const BACKOFF_START := 10
  const BACKOFF_CAP := 200

  /** `probe` records that the reader spent the probe flag on this item. */
  datatype Item = Item(id: nat, probe: bool)

  datatype Reader =
    | Rest
    | SawOpen
    | Sending(probe: bool)
    | QueueFull
    | GiveBack
    | Waiting(id: nat)

  datatype Loop =
    | Receive
    | Check(item: Item)
    // open: one post, then clear everything or arm a timer
    | Probe(item: Item)
    | ProbeClearFailures(item: Item)
    | ProbeClose(item: Item)
    | ProbeClearFlag(item: Item)
    | ProbeReplyGood(item: Item)
    | ProbeReplyBad(item: Item)
    | ArmTimer
    // closed: post until success or until the failures reach the limit
    | Post(item: Item, posts: nat, slept: nat, backoff: nat)
    | ClearFailures(item: Item, posts: nat, slept: nat)
    | Close(item: Item, posts: nat, slept: nat)
    | ReplyGood(item: Item, posts: nat, slept: nat)
    | CountFailure(item: Item, posts: nat, slept: nat, backoff: nat)
    | Sleep(item: Item, posts: nat, slept: nat, backoff: nat)
    | Trip(item: Item, posts: nat, slept: nat)
    | AllowProbe(item: Item, posts: nat, slept: nat)
    | ReplyBad(item: Item, posts: nat, slept: nat)

  /** What the reader is told, with what it took. */
  datatype Reply = Reply(id: nat, ok: bool, probe: bool, posts: nat, slept: nat)

  /** How the reader ends with a line: held as an item, or left to the fail policy. */
  datatype Handled = Held(id: nat) | FailPolicy

  datatype State = State(
    failures: int, open: bool, allowProbe: bool, timers: nat, queue: seq<Item>,
    reader: Reader, loop: Loop, sent: nat, replies: seq<Reply>, handled: seq<Handled>)

  datatype Step = Read | Work(postOk: bool) | Fire

  predicate Enabled(s: State, a: Step) {
    match a
    case Read => s.reader.Waiting? ==> s.reader.id < |s.replies|
    case Work(_) => s.loop.Receive? ==> s.queue != []
    case Fire => s.timers > 0
  }

  function GiveUp(s: State): State { s.(reader := Rest, handled := s.handled + [FailPolicy]) }

  function ReadStep(s: State): State {
    match s.reader
    case Rest => s.(reader := if s.open then SawOpen else Sending(false))
    case SawOpen => if s.allowProbe then s.(allowProbe := false, reader := Sending(true)) else GiveUp(s)
    case Sending(probe) =>
      if |s.queue| < QUEUE_CAP
      then s.(queue := s.queue + [Item(s.sent, probe)], sent := s.sent + 1, reader := Waiting(s.sent))
      else s.(reader := QueueFull)
    case QueueFull => if s.open then s.(reader := GiveBack) else GiveUp(s)
    case GiveBack => GiveUp(s).(allowProbe := true)
    case Waiting(id) =>
      if id < |s.replies| && s.replies[id].ok then s.(reader := Rest, handled := s.handled + [Held(id)]) else GiveUp(s)
  }

  function Answer(s: State, r: Reply, loop: Loop): State { s.(replies := s.replies + [r], loop := loop) }

  function Doubled(backoff: nat): nat { if backoff * 2 > BACKOFF_CAP then BACKOFF_CAP else backoff * 2 }

  function WorkStep(s: State, postOk: bool): State
    requires s.loop.Receive? ==> s.queue != []
  {
    match s.loop
    case Receive => s.(queue := s.queue[1..], loop := Check(s.queue[0]))
    case Check(x) => s.(loop := if s.open then Probe(x) else Post(x, 0, 0, BACKOFF_START))
    case Probe(x) => s.(loop := if postOk then ProbeClearFailures(x) else ProbeReplyBad(x))
    case ProbeClearFailures(x) => s.(failures := 0, loop := ProbeClose(x))
    case ProbeClose(x) => s.(open := false, loop := ProbeClearFlag(x))
    case ProbeClearFlag(x) => s.(allowProbe := false, loop := ProbeReplyGood(x))
    case ProbeReplyGood(x) => Answer(s, Reply(x.id, true, true, 1, 0), Receive)
    case ProbeReplyBad(x) => Answer(s, Reply(x.id, false, true, 1, 0), ArmTimer)
    case ArmTimer => s.(timers := s.timers + 1, loop := Receive)
    case Post(x, n, t, b) => s.(loop := if postOk then ClearFailures(x, n + 1, t) else CountFailure(x, n + 1, t, b))
    case ClearFailures(x, n, t) => s.(failures := 0, loop := Close(x, n, t))
    case Close(x, n, t) => s.(open := false, loop := ReplyGood(x, n, t))
    case ReplyGood(x, n, t) => Answer(s, Reply(x.id, true, false, n, t), Receive)
    case CountFailure(x, n, t, b) =>
      s.(failures := s.failures + 1, loop := if s.failures + 1 >= LIMIT then Trip(x, n, t) else Sleep(x, n, t, b))
    case Sleep(x, n, t, b) => s.(loop := Post(x, n, t + b, Doubled(b)))
    case Trip(x, n, t) => s.(open := true, loop := AllowProbe(x, n, t))
    case AllowProbe(x, n, t) => s.(allowProbe := true, loop := ReplyBad(x, n, t))
    case ReplyBad(x, n, t) => Answer(s, Reply(x.id, false, false, n, t), Receive)
  }

  function Apply(s: State, a: Step): State
    requires Enabled(s, a)
  {
    match a
    case Read => ReadStep(s)
    case Work(postOk) => WorkStep(s, postOk)
    case Fire => s.(timers := s.timers - 1, allowProbe := true)
  }

  const INIT := State(0, false, false, 0, [], Rest, Receive, 0, [], [])

  ghost predicate IsRun(states: seq<State>, steps: seq<Step>) {
    && |states| == |steps| + 1 && states[0] == INIT
    && forall i :: 0 <= i < |steps| ==> Enabled(states[i], steps[i]) && states[i + 1] == Apply(states[i], steps[i])
  }

  // ----- probe tokens

  function ProbesIn(q: seq<Item>): nat { if q == [] then 0 else ProbesIn(q[1..]) + One(q[0].probe) }

  /** The loop works for a probe, or is about to hand the permission for one on. */
  predicate LoopHasToken(l: Loop) {
    || (l.Check? && l.item.probe)
    || l.Probe? || l.ProbeClearFailures? || l.ProbeClose? || l.ProbeReplyBad? || l.ArmTimer? || l.AllowProbe?
  }

  /** Permissions to probe: the flag, pending timers, a probe on its way, queued or in flight. */
  function Tokens(s: State): nat {
    One(s.allowProbe) + s.timers + One(s.reader == Sending(true)) + ProbesIn(s.queue) + One(LoopHasToken(s.loop))
  }

  // ----- the invariant

  /** The loop owes a reply. */
  predicate Owing(l: Loop) { !l.Receive? && !l.ArmTimer? }

  ghost predicate BackoffOK(posts: nat, slept: nat, backoff: nat) {
    || (posts == 0 && slept == 0 && backoff == 10)
    || (posts == 1 && slept == 10 && backoff == 20)
    || (posts == 2 && slept == 30 && backoff == 40)
    || (posts == 3 && slept == 70 && backoff == 80)
    || (posts == 4 && slept == 150 && backoff == 160)
  }

  /** What a count of posts says about the sleeping done between them. */
  function SleptFor(posts: nat): nat {
    if posts <= 1 then 0 else if posts == 2 then 10 else if posts == 3 then 30 else if posts == 4 then 70 else 150
  }

  ghost predicate ReplyOK(r: Reply) {
    && (r.probe ==> r.posts == 1 && r.slept == 0)
    && 1 <= r.posts <= 5 && r.slept == SleptFor(r.posts)
    && (!r.ok && !r.probe ==> r.posts == 5)
  }

  /** Where the loop stands: the breaker, the failures and what the item has cost so far. */
  ghost predicate LoopOK(l: Loop, open: bool, failures: int) {
    match l
    case Receive => !open ==> failures == 0
    case Check(x) => x.probe == open && (!open ==> failures == 0)
    case Probe(x) => open
    case ProbeClearFailures(x) => open
    case ProbeClose(x) => open && failures == 0
    case ProbeClearFlag(x) => !open && failures == 0
    case ProbeReplyGood(x) => !open && failures == 0
    case ProbeReplyBad(x) => open
    case ArmTimer => open
    case Post(x, n, t, b) => !open && failures == n && BackoffOK(n, t, b)
    case ClearFailures(x, n, t) => !open && 1 <= n <= 5 && t == SleptFor(n)
    case Close(x, n, t) => !open && failures == 0 && 1 <= n <= 5 && t == SleptFor(n)
    case ReplyGood(x, n, t) => !open && failures == 0 && 1 <= n <= 5 && t == SleptFor(n)
    case CountFailure(x, n, t, b) => !open && n > 0 && failures == n - 1 && BackoffOK(n - 1, t, b)
    case Sleep(x, n, t, b) => !open && 1 <= n <= 4 && failures == n && BackoffOK(n - 1, t, b)
    case Trip(x, n, t) => !open && n == 5 && t == 150
    case AllowProbe(x, n, t) => open && n == 5 && t == 150
    case ReplyBad(x, n, t) => open && n == 5 && t == 150
  }

  /** The one item in play is with the reader, in the queue or with the loop. */
  ghost predicate PlaceOK(s: State) {
    && |s.replies| + |s.queue| + One(Owing(s.loop)) == s.sent
    && |s.queue| + One(Owing(s.loop)) <= 1
    && (s.queue != [] ==> s.queue[0] == Item(s.sent - 1, s.open) && !s.loop.ArmTimer?)
    && (Owing(s.loop) ==> s.loop.item.id == s.sent - 1)
    && (s.reader.Waiting? ==> s.sent > 0 && s.reader.id == s.sent - 1)
    && (!s.reader.Waiting? ==> s.queue == [] && !Owing(s.loop))
  }

  ghost predicate ReaderOK(s: State) {
    match s.reader
    case Rest => true
    case SawOpen => s.open
    case Sending(probe) => probe == s.open && (probe ==> !s.loop.ArmTimer?)
    case QueueFull => false
    case GiveBack => false
    case Waiting(_) => true
  }

  ghost predicate RepliesOK(replies: seq<Reply>) {
    forall i :: 0 <= i < |replies| ==> replies[i].id == i && ReplyOK(replies[i])
  }

  ghost predicate Inv(s: State) {
    && Tokens(s) == One(s.open)
    && LoopOK(s.loop, s.open, s.failures)
    && PlaceOK(s)
    && ReaderOK(s)
    && RepliesOK(s.replies)
  }

  lemma ReadKeeps(s: State)
    requires Inv(s) && Enabled(s, Read)
    ensures Inv(ReadStep(s))
  {
    if s.reader.Sending? {
      var x := Item(s.sent, s.reader.probe);
      assert s.queue + [x] == [x] && ProbesIn([x]) == One(x.probe);
    }
  }

  lemma WorkTokens(s: State, postOk: bool)
    requires Tokens(s) == One(s.open) && LoopOK(s.loop, s.open, s.failures) && (s.loop.Receive? ==> s.queue != [])
    ensures Tokens(WorkStep(s, postOk)) == One(WorkStep(s, postOk).open)
  {}

  /** The branch for a closed breaker. */
  predicate Retrying(l: Loop) {
    || l.Post? || l.ClearFailures? || l.Close? || l.ReplyGood?
    || l.CountFailure? || l.Sleep? || l.Trip? || l.AllowProbe? || l.ReplyBad?
  }

  lemma ProbingLoop(s: State, postOk: bool)
    requires !Retrying(s.loop) && LoopOK(s.loop, s.open, s.failures)
    requires s.loop.Receive? ==> s.queue != [] && s.queue[0].probe == s.open
    ensures var t := WorkStep(s, postOk); LoopOK(t.loop, t.open, t.failures)
  {}

  lemma RetryingLoop(s: State, postOk: bool)
    requires Retrying(s.loop) && LoopOK(s.loop, s.open, s.failures)
    ensures var t := WorkStep(s, postOk); LoopOK(t.loop, t.open, t.failures)
  {}

  lemma ProbingPlace(s: State, postOk: bool)
    requires !Retrying(s.loop) && PlaceOK(s) && (s.loop.Receive? ==> s.queue != [])
    ensures PlaceOK(WorkStep(s, postOk))
  {}

  lemma RetryingPlace(s: State, postOk: bool)
    requires Retrying(s.loop) && PlaceOK(s)
    ensures PlaceOK(WorkStep(s, postOk))
  {}

  lemma WorkReader(s: State, postOk: bool)
    requires LoopOK(s.loop, s.open, s.failures) && PlaceOK(s) && ReaderOK(s) && (s.loop.Receive? ==> s.queue != [])
    ensures ReaderOK(WorkStep(s, postOk))
  {}

  lemma WorkReplies(s: State, postOk: bool)
    requires LoopOK(s.loop, s.open, s.failures) && PlaceOK(s)
    requires RepliesOK(s.replies) && (s.loop.Receive? ==> s.queue != [])
    ensures RepliesOK(WorkStep(s, postOk).replies)
  {}

  lemma WorkKeeps(s: State, postOk: bool)
    requires Inv(s) && Enabled(s, Work(postOk))
    ensures Inv(WorkStep(s, postOk))
  {
    WorkTokens(s, postOk);
    if Retrying(s.loop) {
      RetryingLoop(s, postOk);
      RetryingPlace(s, postOk);
    } else {
      ProbingLoop(s, postOk);
      ProbingPlace(s, postOk);
    }
    WorkReader(s, postOk);
    WorkReplies(s, postOk);
  }

  lemma FireKeeps(s: State)
    requires Inv(s) && s.timers > 0
    ensures Inv(Apply(s, Fire))
  {
  }

  lemma {:induction false} RunInv(states: seq<State>, steps: seq<Step>, i: nat)
    requires IsRun(states, steps) && i < |states|
    ensures Inv(states[i])
  {
    if i > 0 {
      RunInv(states, steps, i - 1);
      var s, a := states[i - 1], steps[i - 1];
      assert Enabled(s, a) && states[i - 1 + 1] == Apply(s, a);
      match a {
        case Read => ReadKeeps(s);
        case Work(postOk) => WorkKeeps(s, postOk);
        case Fire => FireKeeps(s);
      }
    }
  }

  // ----- results

  /** While open there is exactly one permission to probe, wherever it is; while closed there
      is none, and between items the failure count is zero. */
  lemma ProbeToken(states: seq<State>, steps: seq<Step>, i: nat)
    requires IsRun(states, steps) && i < |states|
    ensures var s := states[i];
            && Tokens(s) == (if s.open then 1 else 0)
            && (!s.open && s.loop.Receive? ==> s.failures == 0)
  {
    RunInv(states, steps, i);
  }

  /** Items are answered once each and in order, and at most one is outstanding. A probe costs
      one post; any other item at most five and 150 ms of backoff, a failed one exactly that. */
  lemma OneReplyEach(states: seq<State>, steps: seq<Step>, i: nat)
    requires IsRun(states, steps) && i < |states|
    ensures var s := states[i];
            && |s.replies| <= s.sent <= |s.replies| + 1
            && (!s.reader.Waiting? ==> |s.replies| == s.sent)
            && forall k :: 0 <= k < |s.replies| ==>
                 && s.replies[k].id == k && 1 <= s.replies[k].posts <= 5 && s.replies[k].slept <= 150
                 && (s.replies[k].probe ==> s.replies[k].posts == 1 && s.replies[k].slept == 0)
                 && (!s.replies[k].probe && !s.replies[k].ok ==> s.replies[k].posts == 5 && s.replies[k].slept == 150)
  {
    RunInv(states, steps, i);
  }

  /** An item is posted once exactly when the breaker is open as the loop takes it up. */
  lemma ProbesWhenOpen(states: seq<State>, steps: seq<Step>, i: nat)
    requires IsRun(states, steps) && i < |states| && states[i].loop.Check?
    ensures states[i].loop.item.probe <==> states[i].open
  {
    RunInv(states, steps, i);
  }

  /** With one reader the queue is never full. */
  lemma QueueNeverFull(states: seq<State>, steps: seq<Step>, i: nat)
    requires IsRun(states, steps) && i < |states|
    ensures |states[i].queue| <= 1 && !states[i].reader.QueueFull? && !states[i].reader.GiveBack?
  {
    RunInv(states, steps, i);
  }

  // ----- what a reply says about the posts

  predicate Posting(l: Loop, id: nat) { (l.Post? || l.Probe?) && l.item.id == id }

  /** The outcomes of the posts of one item, in order, read off the steps of a run. */
  ghost function Posts(states: seq<State>, steps: seq<Step>, i: nat, id: nat): seq<bool>
    requires i <= |steps| && i <= |states|
  {
    if i == 0 then []
    else
      var ps := Posts(states, steps, i - 1, id);
      if steps[i - 1].Work? && Posting(states[i - 1].loop, id) then ps + [steps[i - 1].postOk] else ps
  }

  ghost predicate AllFailed(ps: seq<bool>) { forall k :: 0 <= k < |ps| ==> !ps[k] }

  /** The last post decides, and every earlier one failed. */
  ghost predicate Decided(ps: seq<bool>, ok: bool) {
    |ps| > 0 && ps[|ps| - 1] == ok && AllFailed(ps[..|ps| - 1])
  }

  /** The posts so far of the item the loop works on. */
  ghost predicate LoopPosts(l: Loop, ps: seq<bool>) {
    match l
    case Receive => true
    case ArmTimer => true
    case Check(x) => ps == []
    case Probe(x) => ps == []
    case ProbeClearFailures(x) => ps == [true]
    case ProbeClose(x) => ps == [true]
    case ProbeClearFlag(x) => ps == [true]
    case ProbeReplyGood(x) => ps == [true]
    case ProbeReplyBad(x) => ps == [false]
    case Post(x, n, t, b) => |ps| == n && AllFailed(ps)
    case ClearFailures(x, n, t) => |ps| == n && Decided(ps, true)
    case Close(x, n, t) => |ps| == n && Decided(ps, true)
    case ReplyGood(x, n, t) => |ps| == n && Decided(ps, true)
    case CountFailure(x, n, t, b) => |ps| == n && n > 0 && AllFailed(ps)
    case Sleep(x, n, t, b) => |ps| == n && n > 0 && AllFailed(ps)
    case Trip(x, n, t) => |ps| == n == 5 && AllFailed(ps)
    case AllowProbe(x, n, t) => |ps| == n == 5 && AllFailed(ps)
    case ReplyBad(x, n, t) => |ps| == n == 5 && AllFailed(ps)
  }

  ghost predicate ReplyPosts(r: Reply, ps: seq<bool>) { |ps| == r.posts && Decided(ps, r.ok) }

  /** The account of one item: nothing posted before it is taken up, then as the loop stands,
      and once answered as the reply says. */
  ghost predicate ItemPosts(s: State, id: nat, ps: seq<bool>) {
    if id < |s.replies| then ReplyPosts(s.replies[id], ps)
    else if Owing(s.loop) && s.loop.item.id == id then LoopPosts(s.loop, ps)
    else ps == []
  }

  ghost function After(l: Loop, postOk: bool, ps: seq<bool>): seq<bool> {
    if l.Post? || l.Probe? then ps + [postOk] else ps
  }

  /** The loop goes on with its item, or answers it. */
  ghost predicate StepPosts(s: State, t: State, qs: seq<bool>)
    requires Owing(s.loop)
  {
    if Owing(t.loop) then t.loop.item == s.loop.item && t.replies == s.replies && LoopPosts(t.loop, qs)
    else exists r :: t.replies == s.replies + [r] && r.id == s.loop.item.id && ReplyPosts(r, qs)
  }

  lemma ProbingPosts(s: State, postOk: bool, ps: seq<bool>)
    requires Owing(s.loop) && !Retrying(s.loop) && LoopOK(s.loop, s.open, s.failures) && LoopPosts(s.loop, ps)
    ensures StepPosts(s, WorkStep(s, postOk), After(s.loop, postOk, ps))
  {
    if s.loop.ProbeReplyGood? || s.loop.ProbeReplyBad? {
      var r := WorkStep(s, postOk).replies[|s.replies|];
      assert ReplyPosts(r, ps);
    }
  }

  lemma RetryingPosts(s: State, postOk: bool, ps: seq<bool>)
    requires Retrying(s.loop) && LoopOK(s.loop, s.open, s.failures) && LoopPosts(s.loop, ps)
    ensures StepPosts(s, WorkStep(s, postOk), After(s.loop, postOk, ps))
  {
    assert (ps + [postOk])[..|ps|] == ps;
    if s.loop.ReplyGood? || s.loop.ReplyBad? {
      var r := WorkStep(s, postOk).replies[|s.replies|];
      assert ReplyPosts(r, ps);
    }
  }

  /** The reply of the item in play comes next. */
  lemma NextReply(s: State)
    requires PlaceOK(s) && Owing(s.loop)
    ensures s.loop.item.id == |s.replies|
  {}

  lemma WorkPosts(s: State, postOk: bool, id: nat, ps: seq<bool>)
    requires Inv(s) && Enabled(s, Work(postOk)) && ItemPosts(s, id, ps)
    ensures ItemPosts(WorkStep(s, postOk), id, if Posting(s.loop, id) then ps + [postOk] else ps)
  {
    if Owing(s.loop) {
      NextReply(s);
      if s.loop.item.id == id {
        if Retrying(s.loop) { RetryingPosts(s, postOk, ps); } else { ProbingPosts(s, postOk, ps); }
      }
    }
  }

  lemma ReadPosts(s: State, id: nat, ps: seq<bool>)
    requires ItemPosts(s, id, ps)
    ensures ItemPosts(ReadStep(s), id, ps)
  {}

  lemma {:induction false} RunPosts(states: seq<State>, steps: seq<Step>, i: nat, id: nat)
    requires IsRun(states, steps) && i < |states|
    ensures ItemPosts(states[i], id, Posts(states, steps, i, id))
  {
    if i > 0 {
      RunPosts(states, steps, i - 1, id);
      RunInv(states, steps, i - 1);
      var s, a, ps := states[i - 1], steps[i - 1], Posts(states, steps, i - 1, id);
      assert Enabled(s, a) && states[i - 1 + 1] == Apply(s, a);
      match a {
        case Read => ReadPosts(s, id, ps);
        case Work(postOk) => WorkPosts(s, postOk, id, ps);
        case Fire =>
      }
    }
  }

  /** A reply is positive exactly when the last post of its item succeeded; every earlier post of
      it failed, and the reply tells how many there were. */
  lemma ReplyTellsPosts(states: seq<State>, steps: seq<Step>, i: nat, k: nat)
    requires IsRun(states, steps) && i < |states| && k < |states[i].replies|
    ensures var ps := Posts(states, steps, i, k);
            && |ps| == states[i].replies[k].posts && |ps| > 0
            && (states[i].replies[k].ok <==> ps[|ps| - 1])
            && forall n :: 0 <= n < |ps| - 1 ==> !ps[n]
  {
    RunPosts(states, steps, i, k);
    var ps := Posts(states, steps, i, k);
    forall n | 0 <= n < |ps| - 1 ensures !ps[n] { assert ps[..|ps| - 1][n] == ps[n]; }
  }

  /** The breaker opens only on an item whose five posts all failed, and closes only after a post
      that succeeded. */
  lemma BreakerMoves(states: seq<State>, steps: seq<Step>, i: nat)
    requires IsRun(states, steps) && i < |steps| && states[i].open != states[i + 1].open
    ensures Owing(states[i].loop)
    ensures var ps := Posts(states, steps, i, states[i].loop.item.id);
            if states[i + 1].open then |ps| == 5 && (forall n :: 0 <= n < 5 ==> !ps[n])
            else |ps| > 0 && ps[|ps| - 1]
  {
    RunInv(states, steps, i);
    assert Enabled(states[i], steps[i]) && states[i + 1] == Apply(states[i], steps[i]);
    NextReply(states[i]);
    RunPosts(states, steps, i, states[i].loop.item.id);
  }

  // ----- what the reader does with the replies

  function HeldIds(hs: seq<Handled>): seq<nat> {
    if hs == [] then []
    else HeldIds(hs[..|hs| - 1]) + if hs[|hs| - 1].Held? then [hs[|hs| - 1].id] else []
  }

  function GoodIds(rs: seq<Reply>): seq<nat> {
    if rs == [] then [] else GoodIds(rs[..|rs| - 1]) + if rs[|rs| - 1].ok then [rs[|rs| - 1].id] else []
  }

  /** The replies the reader has received. */
  function Received(s: State): nat { if s.reader.Waiting? && s.sent > 0 then s.sent - 1 else s.sent }

  ghost predicate HeldOK(s: State) {
    Received(s) <= |s.replies| && HeldIds(s.handled) == GoodIds(s.replies[..Received(s)])
  }

  lemma HeldSnoc(hs: seq<Handled>, h: Handled)
    ensures HeldIds(hs + [h]) == HeldIds(hs) + if h.Held? then [h.id] else []
  {
    assert (hs + [h])[..|hs|] == hs;
  }

  /** A line goes to the fail policy without an item. */
  lemma GiveUpHeld(s: State)
    requires HeldOK(s) && !s.reader.Waiting?
    ensures HeldOK(GiveUp(s))
  {
    HeldSnoc(s.handled, FailPolicy);
  }

  lemma GoodSnoc(rs: seq<Reply>, n: nat)
    requires n < |rs|
    ensures GoodIds(rs[..n + 1]) == GoodIds(rs[..n]) + if rs[n].ok then [rs[n].id] else []
  {
    assert rs[..n + 1][..n] == rs[..n];
  }

  lemma ReceiveHeld(s: State, id: nat)
    requires HeldOK(s) && s.reader == Waiting(id) && s.sent == id + 1 && id < |s.replies| && s.replies[id].id == id
    ensures HeldOK(ReadStep(s))
  {
    HeldSnoc(s.handled, if s.replies[id].ok then Held(id) else FailPolicy);
    GoodSnoc(s.replies, id);
    assert Received(ReadStep(s)) == id + 1;
  }

  lemma ReadHeld(s: State)
    requires Inv(s) && Enabled(s, Read) && HeldOK(s)
    ensures HeldOK(ReadStep(s))
  {
    if s.reader.Waiting? {
      ReceiveHeld(s, s.reader.id);
    } else if s.reader.SawOpen? && !s.allowProbe {
      GiveUpHeld(s);
    }
  }

  /** The loop only adds replies. */
  lemma WorkAddsReplies(s: State, postOk: bool)
    requires Enabled(s, Work(postOk))
    ensures var t := WorkStep(s, postOk);
            s.replies <= t.replies && t.handled == s.handled && t.reader == s.reader && t.sent == s.sent
  {}

  lemma WorkHeld(s: State, postOk: bool)
    requires Enabled(s, Work(postOk)) && HeldOK(s)
    ensures HeldOK(WorkStep(s, postOk))
  {
    WorkAddsReplies(s, postOk);
    PrefixHeld(s, WorkStep(s, postOk));
  }

  lemma PrefixHeld(s: State, t: State)
    requires HeldOK(s) && s.replies <= t.replies && t.handled == s.handled && t.reader == s.reader && t.sent == s.sent
    ensures HeldOK(t)
  {
    assert t.replies[..Received(s)] == s.replies[..Received(s)];
  }

  lemma StepHeld(s: State, a: Step)
    requires Inv(s) && Enabled(s, a) && HeldOK(s)
    ensures HeldOK(Apply(s, a))
  {
    match a {
      case Read => ReadHeld(s);
      case Work(postOk) => WorkHeld(s, postOk);
      case Fire => PrefixHeld(s, Apply(s, a));
    }
  }

  lemma {:induction false} RunHeld(states: seq<State>, steps: seq<Step>, i: nat)
    requires IsRun(states, steps) && i < |states|
    ensures HeldOK(states[i])
  {
    if i > 0 {
      RunHeld(states, steps, i - 1);
      RunInv(states, steps, i - 1);
      assert Enabled(states[i - 1], steps[i - 1]) && states[i - 1 + 1] == Apply(states[i - 1], steps[i - 1]);
      StepHeld(states[i - 1], steps[i - 1]);
    }
  }

  /** The lines reported as held are exactly the items with a positive reply, once each and in
      order; every other line goes to the fail policy. */
  lemma HeldExactly(states: seq<State>, steps: seq<Step>, i: nat)
    requires IsRun(states, steps) && i < |states| && !states[i].reader.Waiting?
    ensures HeldIds(states[i].handled) == GoodIds(states[i].replies)
  {
    RunHeld(states, steps, i);
    RunInv(states, steps, i);
    assert states[i].replies[..|states[i].replies|] == states[i].replies;
  }
}
