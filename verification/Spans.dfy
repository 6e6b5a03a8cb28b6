/** Choosing among overlapping detections: longest first, then leftmost, then by kind. */
module Spans {
  datatype Span = Span(kind: string, start: int, end: int)

  function Len(s: Span): int { s.end - s.start }

  predicate NonEmpty(s: Span) { s.start < s.end }

  predicate Overlap(a: Span, b: Span) { a.start < b.end && b.start < a.end }

  // ----- the order of preference

  /** Byte-wise string order. */
  predicate Less(a: string, b: string) {
    if b == "" then false
    else if a == "" then true
    else if a[0] != b[0] then a[0] < b[0]
    else Less(a[1..], b[1..])
  }

  lemma {:induction false} LessTrichotomy(a: string, b: string)
    ensures a == b ==> !Less(a, b)
    ensures a != b ==> (Less(a, b) <==> !Less(b, a))
  {
    if a != "" && b != "" && a[0] == b[0] {
      LessTrichotomy(a[1..], b[1..]);
      assert a == [a[0]] + a[1..] && b == [b[0]] + b[1..];
    }
  }

  lemma {:induction false} LessTransitive(a: string, b: string, c: string)
    requires Less(a, b) && Less(b, c)
    ensures Less(a, c)
  {
    if a != "" && a[0] == b[0] && b[0] == c[0] { LessTransitive(a[1..], b[1..], c[1..]); }
  }

  predicate Before(a: Span, b: Span) {
    if Len(a) != Len(b) then Len(a) > Len(b)
    else if a.start != b.start then a.start < b.start
    else Less(a.kind, b.kind)
  }

  lemma BeforeTotal(a: Span, b: Span)
    ensures a == b ==> !Before(a, b)
    ensures a != b ==> (Before(a, b) <==> !Before(b, a))
  {
    LessTrichotomy(a.kind, b.kind);
  }

  lemma BeforeTransitive(a: Span, b: Span, c: Span)
    requires Before(a, b) && Before(b, c)
    ensures Before(a, c)
  {
    if Len(a) == Len(b) == Len(c) && a.start == b.start == c.start { LessTransitive(a.kind, b.kind, c.kind); }
  }

  // ----- sorting, by a contract that leaves ties open

  ghost predicate Preorder(le: (Span, Span) -> bool) {
    && (forall a, b :: le(a, b) || le(b, a))
    && (forall a, b, c :: le(a, b) && le(b, c) ==> le(a, c))
  }

  ghost predicate SortedBy(le: (Span, Span) -> bool, xs: seq<Span>) {
    forall i, j :: 0 <= i < j < |xs| ==> le(xs[i], xs[j])
  }

  lemma SortedSnoc(le: (Span, Span) -> bool, xs: seq<Span>, x: Span)
    requires SortedBy(le, xs) && forall y :: y in xs ==> le(y, x)
    ensures SortedBy(le, xs + [x])
  {}

  lemma SortedInit(le: (Span, Span) -> bool, xs: seq<Span>, n: nat)
    requires SortedBy(le, xs) && |xs| == n + 1
    ensures SortedBy(le, xs[..n]) && (forall y :: y in xs[..n] ==> le(y, xs[n])) && xs == xs[..n] + [xs[n]]
  {}

  lemma BelowAll(le: (Span, Span) -> bool, xs: seq<Span>, last: Span, x: Span)
    requires Preorder(le) && (forall y :: y in xs ==> le(y, last)) && le(last, x)
    ensures forall y :: y in xs + [last] ==> le(y, x)
  {}

  function Insert(le: (Span, Span) -> bool, xs: seq<Span>, x: Span): (ys: seq<Span>)
    requires Preorder(le) && SortedBy(le, xs)
    ensures SortedBy(le, ys) && multiset(ys) == multiset(xs) + multiset{x}
    ensures forall y :: y in ys ==> y == x || y in xs
  {
    if xs == [] then [x]
    else
      var n := |xs| - 1;
      SortedInit(le, xs, n);
      if le(xs[n], x) then
        BelowAll(le, xs[..n], xs[n], x);
        SortedSnoc(le, xs, x);
        xs + [x]
      else
        var zs := Insert(le, xs[..n], x);
        SortedSnoc(le, zs, xs[n]);
        zs + [xs[n]]
  }

  function Sort(le: (Span, Span) -> bool, xs: seq<Span>): (ys: seq<Span>)
    requires Preorder(le)
    ensures SortedBy(le, ys) && multiset(ys) == multiset(xs)
  {
    if xs == [] then []
    else
      var n := |xs| - 1;
      assert xs == xs[..n] + [xs[n]];
      Insert(le, Sort(le, xs[..n]), xs[n])
  }

  lemma SameElements(xs: seq<Span>, ys: seq<Span>)
    requires multiset(xs) == multiset(ys)
    ensures |xs| == |ys| && forall x :: x in xs <==> x in ys
  {
    assert |multiset(xs)| == |xs| && |multiset(ys)| == |ys|;
    assert forall x :: x in xs <==> x in multiset(xs);
    assert forall x :: x in ys <==> x in multiset(ys);
  }

  function RankLe(): (Span, Span) -> bool { (a: Span, b: Span) => !Before(b, a) }

  function StartLe(): (Span, Span) -> bool { (a: Span, b: Span) => a.start <= b.start }

  lemma RankPreorder()
    ensures Preorder(RankLe())
  {
    var le := RankLe();
    forall a, b ensures le(a, b) || le(b, a) { BeforeTotal(a, b); }
    forall a, b, c | le(a, b) && le(b, c) ensures le(a, c) {
      BeforeTotal(a, b);
      BeforeTotal(b, c);
      BeforeTotal(a, c);
      if Before(a, b) && Before(b, c) { BeforeTransitive(a, b, c); }
    }
  }

  // ----- the choice

  ghost predicate Disjoint(xs: seq<Span>) {
    forall i, j :: 0 <= i < j < |xs| ==> !Overlap(xs[i], xs[j])
  }

  ghost predicate InOrder(xs: seq<Span>) {
    && (forall i :: 0 <= i < |xs| ==> NonEmpty(xs[i]))
    && (forall i, j :: 0 <= i < j < |xs| ==> xs[i].end <= xs[j].start)
  }

  /** A chosen span that comes first and overlaps is why `x` was rejected. */
  ghost predicate Displaced(x: Span, chosen: seq<Span>) {
    exists c :: c in chosen && Overlap(c, x) && Before(c, x)
  }

  /** What the choice promises: sorted, disjoint, non-empty candidates, and every rejected
      non-empty candidate overlaps a preferred chosen one. */
  ghost predicate IsSelection(spans: seq<Span>, chosen: seq<Span>) {
    && InOrder(chosen)
    && (forall x :: x in chosen ==> x in spans)
    && (forall x :: x in spans && NonEmpty(x) && x !in chosen ==> Displaced(x, chosen))
  }

  method Hits(sp: Span, chosen: seq<Span>) returns (hit: bool)
    ensures hit <==> exists c :: c in chosen && Overlap(c, sp)
  {
    for i := 0 to |chosen|
      invariant forall k :: 0 <= k < i ==> !Overlap(chosen[k], sp)
    {
      if sp.start < chosen[i].end && chosen[i].start < sp.end {
        assert chosen[i] in chosen && Overlap(chosen[i], sp);
        return true;
      }
    }
    return false;
  }

  /** The state of the greedy loop after looking at a prefix of the ranked candidates. */
  ghost predicate Greedy(prefix: seq<Span>, chosen: seq<Span>) {
    && Disjoint(chosen)
    && (forall x :: x in chosen ==> x in prefix && NonEmpty(x))
    && (forall x :: x in prefix && NonEmpty(x) && x !in chosen ==> Displaced(x, chosen))
  }

  lemma GreedyTakes(prefix: seq<Span>, chosen: seq<Span>, x: Span)
    requires Greedy(prefix, chosen) && NonEmpty(x) && !exists c :: c in chosen && Overlap(c, x)
    ensures Greedy(prefix + [x], chosen + [x])
  {
    forall y | y in prefix + [x] && NonEmpty(y) && y !in chosen + [x] ensures Displaced(y, chosen + [x]) {
      assert y in prefix && y !in chosen && Displaced(y, chosen);
      var c :| c in chosen && Overlap(c, y) && Before(c, y);
      assert c in chosen + [x];
    }
  }

  lemma GreedySkips(prefix: seq<Span>, chosen: seq<Span>, x: Span)
    requires Greedy(prefix, chosen)
    requires NonEmpty(x) ==> exists c :: c in chosen && Overlap(c, x)
    requires forall c :: c in prefix ==> !Before(x, c)
    ensures Greedy(prefix + [x], chosen)
  {
    if NonEmpty(x) && x !in chosen {
      var c :| c in chosen && Overlap(c, x);
      BeforeTotal(c, x);
      assert Displaced(x, chosen);
    }
  }

  /** The greedy pass over the ranked candidates. */
  method Pick(ranked: seq<Span>) returns (picked: seq<Span>)
    requires SortedBy(RankLe(), ranked)
    ensures Greedy(ranked, picked)
  {
    picked := [];
    for i := 0 to |ranked|
      invariant Greedy(ranked[..i], picked)
    {
      var sp := ranked[i];
      assert ranked[..i + 1] == ranked[..i] + [sp];
      var hit := Hits(sp, picked);
      if sp.end > sp.start && !hit {
        GreedyTakes(ranked[..i], picked, sp);
        picked := picked + [sp];
      } else {
        RankedBefore(ranked, i);
        GreedySkips(ranked[..i], picked, sp);
      }
    }
    assert ranked[..|ranked|] == ranked;
  }

  lemma RankedBefore(ranked: seq<Span>, i: nat)
    requires SortedBy(RankLe(), ranked) && i < |ranked|
    ensures forall c :: c in ranked[..i] ==> !Before(ranked[i], c)
  {
    forall k | 0 <= k < i ensures !Before(ranked[i], ranked[k]) { assert RankLe()(ranked[k], ranked[i]); }
  }

  lemma PickedIsSelection(spans: seq<Span>, ranked: seq<Span>, picked: seq<Span>, chosen: seq<Span>)
    requires multiset(ranked) == multiset(spans) && Greedy(ranked, picked)
    requires multiset(chosen) == multiset(picked) && SortedBy(StartLe(), chosen)
    ensures IsSelection(spans, chosen)
  {
    SameElements(spans, ranked);
    SameElements(picked, chosen);
    SortedDisjoint(picked, chosen);
    forall x | x in spans && NonEmpty(x) && x !in chosen ensures Displaced(x, chosen) {
      assert Displaced(x, picked);
      var c :| c in picked && Overlap(c, x) && Before(c, x);
      assert c in chosen;
    }
  }

  method PreferLonger(spans: seq<Span>) returns (chosen: seq<Span>)
    ensures IsSelection(spans, chosen)
  {
    RankPreorder();
    var ranked := Sort(RankLe(), spans);
    var picked := Pick(ranked);
    chosen := Sort(StartLe(), picked);
    PickedIsSelection(spans, ranked, picked, chosen);
  }

  /** Sorting disjoint non-empty spans by their start puts them in order. */
  lemma SortedDisjoint(picked: seq<Span>, chosen: seq<Span>)
    requires Disjoint(picked) && (forall x :: x in picked ==> NonEmpty(x))
    requires multiset(picked) == multiset(chosen) && SortedBy(StartLe(), chosen)
    ensures InOrder(chosen)
  {
    SameElements(picked, chosen);
    forall i, j | 0 <= i < j < |chosen| ensures chosen[i].end <= chosen[j].start {
      var a, b := chosen[i], chosen[j];
      assert StartLe()(a, b) && a in picked && b in picked;
      Twice(chosen, i, j);
      Once(picked, a);
      var m :| 0 <= m < |picked| && picked[m] == a;
      var n :| 0 <= n < |picked| && picked[n] == b;
      assert m < n || n < m;
    }
  }

  lemma Twice(xs: seq<Span>, i: nat, j: nat)
    requires i < j < |xs|
    ensures xs[i] == xs[j] ==> multiset(xs)[xs[i]] >= 2
  {
    assert xs == xs[..i] + [xs[i]] + xs[i + 1..j] + [xs[j]] + xs[j + 1..];
  }

  lemma {:induction false} Once(picked: seq<Span>, a: Span)
    requires Disjoint(picked) && NonEmpty(a)
    ensures multiset(picked)[a] <= 1
  {
    if picked != [] {
      var n := |picked| - 1;
      assert picked == picked[..n] + [picked[n]];
      Once(picked[..n], a);
      if picked[n] == a {
        forall m | 0 <= m < n ensures picked[..n][m] != a { assert !Overlap(picked[m], picked[n]); }
      }
    }
  }

  // ----- the choice is unique

  ghost function Earlier(spans: seq<Span>, x: Span): set<Span> { set y | y in spans && Before(y, x) }

  lemma EarlierShrinks(spans: seq<Span>, c: Span, x: Span)
    requires c in spans && Before(c, x)
    ensures Earlier(spans, c) < Earlier(spans, x)
  {
    forall y | y in Earlier(spans, c) ensures y in Earlier(spans, x) { BeforeTransitive(y, c, x); }
    BeforeTotal(c, c);
    assert c in Earlier(spans, x) && c !in Earlier(spans, c);
  }

  lemma ChosenApart(chosen: seq<Span>, a: Span, b: Span)
    requires InOrder(chosen) && a in chosen && b in chosen && Overlap(a, b)
    ensures a == b
  {}

  /** Two selections from the same candidates have the same members. */
  lemma {:induction false} SameMember(spans: seq<Span>, spans': seq<Span>, r: seq<Span>, q: seq<Span>, x: Span)
    requires IsSelection(spans, r) && IsSelection(spans', q) && (forall y :: y in spans <==> y in spans')
    requires x in r
    ensures x in q
    decreases Earlier(spans, x)
  {
    if x !in q {
      assert NonEmpty(x) && Displaced(x, q);
      var c :| c in q && Overlap(c, x) && Before(c, x);
      EarlierShrinks(spans, c, x);
      assert Earlier(spans', c) == Earlier(spans, c);
      SameMember(spans', spans, q, r, c);
      ChosenApart(r, c, x);
      BeforeTotal(c, x);
      assert false;
    }
  }

  lemma {:induction false} InOrderUnique(r: seq<Span>, q: seq<Span>)
    requires InOrder(r) && InOrder(q) && forall x :: x in r <==> x in q
    ensures r == q
  {
    if r == [] {
      assert forall i :: 0 <= i < |q| ==> q[i] in r;
    } else {
      assert r[0] in q && q != [];
      assert q[0] in r;
      assert r[0] == q[0];
      forall x ensures x in r[1..] <==> x in q[1..] {
        assert x in r[1..] ==> x in r && x != r[0];
        assert x in q[1..] ==> x in q && x != q[0];
        assert x in r && x != r[0] ==> x in r[1..];
        assert x in q && x != q[0] ==> x in q[1..];
      }
      InOrderUnique(r[1..], q[1..]);
      assert r == [r[0]] + r[1..] && q == [q[0]] + q[1..];
    }
  }

  /** The choice is the only one with its promise: it depends neither on the order nor on
      repetitions of the candidates. */
  lemma SelectionUnique(spans: seq<Span>, spans': seq<Span>, r: seq<Span>, q: seq<Span>)
    requires IsSelection(spans, r) && IsSelection(spans', q) && forall y :: y in spans <==> y in spans'
    ensures r == q
  {
    forall x ensures x in r <==> x in q {
      if x in r { SameMember(spans, spans', r, q, x); }
      if x in q { SameMember(spans', spans, q, r, x); }
    }
    InOrderUnique(r, q);
  }

  /** Choosing again from the chosen changes nothing. */
  lemma SelectionIdempotent(spans: seq<Span>, r: seq<Span>, q: seq<Span>)
    requires IsSelection(spans, r) && IsSelection(r, q)
    ensures q == r
  {
    SelectionUnique(r, r, r, q);
  }

  lemma {:induction false} GreedyExists(ranked: seq<Span>) returns (picked: seq<Span>)
    requires SortedBy(RankLe(), ranked)
    ensures Greedy(ranked, picked)
  {
    if ranked == [] {
      picked := [];
    } else {
      var n := |ranked| - 1;
      var sp := ranked[n];
      assert ranked == ranked[..n] + [sp];
      RankedBefore(ranked, n);
      picked := GreedyExists(ranked[..n]);
      if NonEmpty(sp) && !exists c :: c in picked && Overlap(c, sp) {
        GreedyTakes(ranked[..n], picked, sp);
        picked := picked + [sp];
      } else {
        GreedySkips(ranked[..n], picked, sp);
      }
    }
  }

  lemma SelectionExists(spans: seq<Span>)
    ensures exists chosen :: IsSelection(spans, chosen)
  {
    RankPreorder();
    var ranked := Sort(RankLe(), spans);
    var picked := GreedyExists(ranked);
    PickedIsSelection(spans, ranked, picked, Sort(StartLe(), picked));
  }

  /** The selection, as a function of the candidates. */
  ghost function Chosen(spans: seq<Span>): (chosen: seq<Span>)
    ensures IsSelection(spans, chosen)
  {
    SelectionExists(spans);
    var chosen :| IsSelection(spans, chosen);
    chosen
  }

  // ----- how much detected text the choice covers

  ghost predicate Between(lo: int, p: int, hi: int) { lo <= p < hi }

  ghost function Interval(lo: int, hi: int): set<int> { set p | lo <= p < hi && Between(lo, p, hi) }

  lemma {:induction false} IntervalSize(lo: int, hi: int)
    requires lo <= hi
    ensures |Interval(lo, hi)| == hi - lo
    decreases hi - lo
  {
    if lo < hi {
      IntervalSize(lo, hi - 1);
      assert Interval(lo, hi) == Interval(lo, hi - 1) + {hi - 1};
    }
  }

  ghost function Positions(s: Span): set<int> { Interval(s.start, s.end) }

  ghost function Covered(spans: seq<Span>): set<int> {
    if spans == [] then {} else Covered(spans[..|spans| - 1]) + Positions(spans[|spans| - 1])
  }

  /** Everything a candidate no longer than `c` that overlaps `c` can reach. */
  ghost function Reach(c: Span): set<int> { Interval(c.start - (Len(c) - 1), c.end + (Len(c) - 1)) }

  ghost function Reached(chosen: seq<Span>): set<int> {
    if chosen == [] then {} else Reached(chosen[..|chosen| - 1]) + Reach(chosen[|chosen| - 1])
  }

  ghost function TotalLen(chosen: seq<Span>): int {
    if chosen == [] then 0 else TotalLen(chosen[..|chosen| - 1]) + Len(chosen[|chosen| - 1])
  }

  lemma UnionSize(a: set<int>, b: set<int>)
    ensures |a + b| <= |a| + |b| && (a !! b ==> |a + b| == |a| + |b|)
  {
    assert a + b == a + (b - a);
    assert |a + (b - a)| == |a| + |b - a|;
    assert |b - a| <= |b|;
  }

  lemma {:induction false} ReachedSize(chosen: seq<Span>)
    requires forall c :: c in chosen ==> NonEmpty(c)
    ensures |Reached(chosen)| <= 3 * TotalLen(chosen) - 2 * |chosen|
  {
    if chosen != [] {
      var c := chosen[|chosen| - 1];
      assert c in chosen && forall x :: x in chosen[..|chosen| - 1] ==> x in chosen;
      ReachedSize(chosen[..|chosen| - 1]);
      IntervalSize(c.start - (Len(c) - 1), c.end + (Len(c) - 1));
      UnionSize(Reached(chosen[..|chosen| - 1]), Reach(c));
    }
  }

  lemma {:induction false} ReachIncluded(chosen: seq<Span>, c: Span)
    requires c in chosen
    ensures Reach(c) <= Reached(chosen)
  {
    var n := |chosen| - 1;
    assert chosen == chosen[..n] + [chosen[n]];
    if chosen[n] != c { ReachIncluded(chosen[..n], c); }
  }

  lemma {:induction false} CoveredIsReached(spans: seq<Span>, all: seq<Span>, chosen: seq<Span>)
    requires IsSelection(all, chosen) && forall x :: x in spans ==> x in all
    ensures Covered(spans) <= Reached(chosen)
  {
    if spans != [] {
      var x := spans[|spans| - 1];
      CoveredIsReached(spans[..|spans| - 1], all, chosen);
      if NonEmpty(x) {
        if x in chosen {
          ReachIncluded(chosen, x);
        } else {
          assert Displaced(x, chosen);
          var c :| c in chosen && Overlap(c, x) && Before(c, x);
          ReachIncluded(chosen, c);
          assert Positions(x) <= Reach(c);
        }
      }
    }
  }

  lemma {:induction false} CoveredByChosen(chosen: seq<Span>)
    requires InOrder(chosen)
    ensures |Covered(chosen)| == TotalLen(chosen)
    ensures forall p :: p in Covered(chosen) ==> chosen != [] && p < chosen[|chosen| - 1].end
  {
    if chosen != [] {
      var n := |chosen| - 1;
      CoveredByChosen(chosen[..n]);
      IntervalSize(chosen[n].start, chosen[n].end);
      UnionSize(Covered(chosen[..n]), Positions(chosen[n]));
    }
  }

  /** The positions any candidate covers number at most the sum of 3·length − 2 over the
      chosen spans, so what is left outside them is less than twice what is replaced. */
  lemma CoverageBound(spans: seq<Span>, chosen: seq<Span>)
    requires IsSelection(spans, chosen)
    ensures |Covered(spans)| <= 3 * TotalLen(chosen) - 2 * |chosen|
    ensures |Covered(chosen)| == TotalLen(chosen)
    ensures |Covered(spans) - Covered(chosen)| <= 2 * |Covered(chosen)| - 2 * |chosen|
  {
    CoveredIsReached(spans, spans, chosen);
    ReachedSize(chosen);
    SubsetSize(Covered(spans), Reached(chosen));
    CoveredByChosen(chosen);
    ChosenCovered(chosen, spans);
    assert Covered(spans) == Covered(chosen) + (Covered(spans) - Covered(chosen));
    UnionSize(Covered(chosen), Covered(spans) - Covered(chosen));
  }

  lemma SubsetSize(a: set<int>, b: set<int>)
    requires a <= b
    ensures |a| <= |b|
  {
    assert b == a + (b - a);
    UnionSize(a, b - a);
  }

  lemma {:induction false} PositionsIncluded(spans: seq<Span>, x: Span)
    requires x in spans
    ensures Positions(x) <= Covered(spans)
  {
    var n := |spans| - 1;
    assert spans == spans[..n] + [spans[n]];
    if spans[n] != x { PositionsIncluded(spans[..n], x); }
  }

  lemma {:induction false} ChosenCovered(chosen: seq<Span>, spans: seq<Span>)
    requires forall x :: x in chosen ==> x in spans
    ensures Covered(chosen) <= Covered(spans)
  {
    if chosen != [] {
      ChosenCovered(chosen[..|chosen| - 1], spans);
      PositionsIncluded(spans, chosen[|chosen| - 1]);
    }
  }

  // ----- the order of preference, written out

  /** At the first difference `a` has the smaller character, or `a` ends there. */
  ghost predicate FirstDifference(a: string, b: string, k: int) {
    0 <= k <= |a| && k < |b| && a[..k] == b[..k] && (k == |a| || a[k] < b[k])
  }

  lemma {:induction false} LessMeans(a: string, b: string)
    ensures Less(a, b) <==> exists k :: FirstDifference(a, b, k)
  {
    if Less(a, b) {
      if a == "" || a[0] != b[0] {
        assert FirstDifference(a, b, 0);
      } else {
        LessMeans(a[1..], b[1..]);
        var k :| FirstDifference(a[1..], b[1..], k);
        assert a[..k + 1] == [a[0]] + a[1..][..k] && b[..k + 1] == [b[0]] + b[1..][..k];
        assert FirstDifference(a, b, k + 1);
      }
    } else {
      forall k ensures !FirstDifference(a, b, k) { NotLess(a, b, k); }
    }
  }

  lemma {:induction false} NotLess(a: string, b: string, k: int)
    requires !Less(a, b)
    ensures !FirstDifference(a, b, k)
  {
    if k > 0 && k <= |a| && k < |b| && a[0] == b[0] {
      NotLess(a[1..], b[1..], k - 1);
      if a[..k] == b[..k] { assert a[1..][..k - 1] == a[..k][1..] && b[1..][..k - 1] == b[..k][1..]; }
    } else if k > 0 && k <= |a| && k < |b| {
      assert a[..k][0] != b[..k][0];
    }
  }

  /** Of two overlapping candidates the longer is chosen; of equally long ones the leftmost; of
      two at the same place the one whose kind comes first. */
  lemma PairChoice(x: Span, y: Span, chosen: seq<Span>)
    requires NonEmpty(x) && NonEmpty(y) && Overlap(x, y) && IsSelection([x, y], chosen)
    requires || Len(x) > Len(y)
             || (Len(x) == Len(y) && x.start < y.start)
             || (Len(x) == Len(y) && x.start == y.start && exists k :: FirstDifference(x.kind, y.kind, k))
    ensures chosen == [x]
  {
    LessMeans(x.kind, y.kind);
    assert Before(x, y);
    BeforeTotal(x, y);
    assert IsSelection([x, y], [x]) by {
      assert x in [x, y] && x in [x];
      assert Displaced(y, [x]);
    }
    SelectionUnique([x, y], [x, y], chosen, [x]);
  }

  /** Non-empty spans overlap exactly when they share a position; touching is not overlapping. */
  lemma OverlapMeans(a: Span, b: Span)
    requires NonEmpty(a) && NonEmpty(b)
    ensures Overlap(a, b) <==> exists p :: Between(a.start, p, a.end) && Between(b.start, p, b.end)
  {
    if Overlap(a, b) {
      var p := if a.start < b.start then b.start else a.start;
      assert Between(a.start, p, a.end) && Between(b.start, p, b.end);
    }
  }
}
