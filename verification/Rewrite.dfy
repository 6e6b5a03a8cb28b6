/** Rewriting a text at chosen spans: the guarded rewriter of the detectors and the unguarded
    one of the redaction jobs compute the same function of their token tables. */
module Rewrite {
  import opened Spans

  /** The text written for a span that covers the given text. */
  type Token = (Span, string) -> string

  ghost predicate InRange(s: string, x: Span) { 0 <= x.start && x.end <= |s| }

  /** Spans as Scan returns them: non-empty, in order, disjoint and inside the text. */
  ghost predicate Fits(s: string, spans: seq<Span>) {
    InOrder(spans) && forall i :: 0 <= i < |spans| ==> InRange(s, spans[i])
  }

  function TextOf(s: string, x: Span): string
    requires 0 <= x.start <= x.end <= |s|
  {
    s[x.start..x.end]
  }

  function LastEnd(spans: seq<Span>): int { if spans == [] then 0 else spans[|spans| - 1].end }

  lemma FitsPrefix(s: string, spans: seq<Span>, k: nat)
    requires Fits(s, spans) && k <= |spans|
    ensures Fits(s, spans[..k]) && 0 <= LastEnd(spans[..k]) <= |s|
    ensures k < |spans| ==> LastEnd(spans[..k]) <= spans[k].start < spans[k].end
  {}

  /** Everything up to the end of the last span. */
  ghost function Built(s: string, spans: seq<Span>, tok: Token): string
    requires Fits(s, spans)
  {
    if spans == [] then ""
    else
      var n := |spans| - 1;
      FitsPrefix(s, spans, n);
      Built(s, spans[..n], tok) + s[LastEnd(spans[..n])..spans[n].start] + tok(spans[n], TextOf(s, spans[n]))
  }

  ghost function Rewritten(s: string, spans: seq<Span>, tok: Token): string
    requires Fits(s, spans)
  {
    FitsPrefix(s, spans, |spans|);
    assert spans[..|spans|] == spans;
    Built(s, spans, tok) + s[LastEnd(spans)..]
  }

  // ----- the rewriting, position by position

  /** By how much the replacements have lengthened the text. */
  ghost function Delta(s: string, spans: seq<Span>, tok: Token): int
    requires Fits(s, spans)
  {
    if spans == [] then 0
    else
      var n := |spans| - 1;
      FitsPrefix(s, spans, n);
      Delta(s, spans[..n], tok) + |tok(spans[n], TextOf(s, spans[n]))| - Len(spans[n])
  }

  lemma {:induction false} BuiltLength(s: string, spans: seq<Span>, tok: Token)
    requires Fits(s, spans)
    ensures |Built(s, spans, tok)| == LastEnd(spans) + Delta(s, spans, tok)
  {
    if spans != [] {
      FitsPrefix(s, spans, |spans| - 1);
      BuiltLength(s, spans[..|spans| - 1], tok);
    }
  }

  lemma BuiltStep(s: string, spans: seq<Span>, tok: Token, k: nat)
    requires Fits(s, spans) && k < |spans|
    ensures Fits(s, spans[..k]) && Fits(s, spans[..k + 1]) && 0 <= LastEnd(spans[..k]) <= spans[k].start
    ensures Built(s, spans[..k + 1], tok)
            == Built(s, spans[..k], tok) + s[LastEnd(spans[..k])..spans[k].start] + tok(spans[k], TextOf(s, spans[k]))
  {
    FitsPrefix(s, spans, k);
    FitsPrefix(s, spans, k + 1);
    assert spans[..k + 1][..k] == spans[..k];
  }

  lemma {:induction false} BuiltPrefix(s: string, spans: seq<Span>, tok: Token, k: nat)
    requires Fits(s, spans) && k <= |spans|
    ensures Fits(s, spans[..k]) && Built(s, spans[..k], tok) <= Built(s, spans, tok)
    decreases |spans| - k
  {
    if k == |spans| {
      assert spans[..k] == spans;
    } else {
      BuiltStep(s, spans, tok, k);
      BuiltPrefix(s, spans, tok, k + 1);
    }
  }

  /** The first k + 1 pieces: what precedes span k, the gap before it and its token. */
  lemma PieceAt(s: string, spans: seq<Span>, tok: Token, k: nat)
    requires Fits(s, spans) && k < |spans|
    ensures Fits(s, spans[..k]) && 0 <= LastEnd(spans[..k]) <= spans[k].start
    ensures Built(s, spans[..k], tok) + s[LastEnd(spans[..k])..spans[k].start] + tok(spans[k], TextOf(s, spans[k]))
            <= Rewritten(s, spans, tok)
  {
    BuiltStep(s, spans, tok, k);
    BuiltPrefix(s, spans, tok, k + 1);
  }

  /** Text outside the spans is preserved in order: position i, after the first k spans, moves
      by exactly what those k replacements added. */
  lemma OutsidePreserved(s: string, spans: seq<Span>, tok: Token, k: nat, i: nat)
    requires Fits(s, spans) && k <= |spans| && i < |s|
    requires Fits(s, spans[..k]) && LastEnd(spans[..k]) <= i && (k < |spans| ==> i < spans[k].start)
    ensures var p := i + Delta(s, spans[..k], tok);
            0 <= p < |Rewritten(s, spans, tok)| && Rewritten(s, spans, tok)[p] == s[i]
  {
    BuiltLength(s, spans[..k], tok);
    FitsPrefix(s, spans, k);
    if k < |spans| { PieceAt(s, spans, tok, k); } else { assert spans[..k] == spans; }
  }

  /** Each span is replaced by exactly its token. */
  lemma TokenPlaced(s: string, spans: seq<Span>, tok: Token, k: nat)
    requires Fits(s, spans) && k < |spans| && Fits(s, spans[..k])
    ensures var p := spans[k].start + Delta(s, spans[..k], tok); var t := tok(spans[k], TextOf(s, spans[k]));
            0 <= p <= p + |t| <= |Rewritten(s, spans, tok)| && Rewritten(s, spans, tok)[p..p + |t|] == t
  {
    BuiltLength(s, spans[..k], tok);
    PieceAt(s, spans, tok, k);
    Middle(Built(s, spans[..k], tok) + s[LastEnd(spans[..k])..spans[k].start], tok(spans[k], TextOf(s, spans[k])),
           Rewritten(s, spans, tok));
  }

  lemma Middle(a: string, t: string, whole: string)
    requires a + t <= whole
    ensures |a| + |t| <= |whole| && whole[|a|..|a| + |t|] == t
  {
    forall i | 0 <= i < |t| ensures whole[|a| + i] == t[i] { assert (a + t)[|a| + i] == whole[|a| + i]; }
  }

  lemma RewrittenLength(s: string, spans: seq<Span>, tok: Token)
    requires Fits(s, spans)
    ensures |Rewritten(s, spans, tok)| == |s| + Delta(s, spans, tok)
  {
    BuiltLength(s, spans, tok);
    FitsPrefix(s, spans, |spans|);
    assert spans[..|spans|] == spans;
  }

  /** Token tables that agree on the spans give the same text. */
  lemma {:induction false} SameTokens(s: string, spans: seq<Span>, tok: Token, tok': Token)
    requires Fits(s, spans)
    requires forall i :: 0 <= i < |spans| ==> tok(spans[i], TextOf(s, spans[i])) == tok'(spans[i], TextOf(s, spans[i]))
    ensures Built(s, spans, tok) == Built(s, spans, tok') && Rewritten(s, spans, tok) == Rewritten(s, spans, tok')
  {
    if spans != [] {
      FitsPrefix(s, spans, |spans| - 1);
      SameTokens(s, spans[..|spans| - 1], tok, tok');
    }
  }

  // ----- modes

  datatype Mode = Redact | Partial | Tokenize

  function Repeat(n: nat): (s: string)
    ensures |s| == n && forall i :: 0 <= i < n ==> s[i] == '*'
  {
    if n == 0 then "" else Repeat(n - 1) + "*"
  }

  function PartialMask(t: string): string {
    if |t| <= 4 then t else Repeat(|t| - 4) + t[|t| - 4..]
  }

  function UpperChar(c: char): char { if 'a' <= c <= 'z' then (c as int - 32) as char else c }

  function Upper(s: string): (u: string)
    ensures |u| == |s| && forall i :: 0 <= i < |s| ==> u[i] == UpperChar(s[i])
  {
    if s == "" then "" else Upper(s[..|s| - 1]) + [UpperChar(s[|s| - 1])]
  }

  function Bracketed(kind: string): string { "[" + Upper(kind) + "]" }

  /** A bracketed token, written out for one kind. */
  lemma BracketedIs(kind: string)
    ensures var b := Bracketed(kind);
            && |b| == |kind| + 2 && b[0] == '[' && b[|b| - 1] == ']'
            && forall i :: 0 <= i < |kind| && 'a' <= kind[i] <= 'z' ==> b[i + 1] as int == kind[i] as int - 32
    ensures Bracketed("pan") == "[PAN]"
  {
    var u := Upper("pan");
    assert u[0] == 'P' && u[1] == 'A' && u[2] == 'N' && u == [u[0], u[1], u[2]];
  }

  /** The deterministic pseudonym is a parameter: it hashes the kind and the text. */
  function Replacement(mode: Mode, pseudonym: (string, string) -> string, kind: string, text: string): string {
    match mode
    case Partial => PartialMask(text)
    case Tokenize => pseudonym(kind, text)
    case Redact => Bracketed(kind)
  }

  ghost function ModeToken(mode: Mode, pseudonym: (string, string) -> string): Token {
    (x: Span, t: string) => Replacement(mode, pseudonym, x.kind, t)
  }

  ghost predicate Starred(spans: seq<Span>, i: int) {
    exists k :: 0 <= k < |spans| && spans[k].start <= i < spans[k].end - 4
  }

  ghost function StarAt(s: string, spans: seq<Span>, i: nat): char
    requires i < |s|
  {
    if Starred(spans, i) then '*' else s[i]
  }

  lemma PartialMaskAt(s: string, x: Span, i: nat)
    requires NonEmpty(x) && InRange(s, x) && x.start <= i < x.end
    ensures |PartialMask(TextOf(s, x))| == Len(x)
    ensures PartialMask(TextOf(s, x))[i - x.start] == if i < x.end - 4 then '*' else s[i]
  {
    var t, k := TextOf(s, x), i - x.start;
    assert |t| == Len(x) && t[k] == s[i];
    if |t| > 4 && i >= x.end - 4 { assert PartialMask(t)[k] == t[|t| - 4..][k - (|t| - 4)]; }
  }

  lemma {:induction false} PartialBuilt(s: string, spans: seq<Span>, tok: Token)
    requires Fits(s, spans) && forall x, t :: tok(x, t) == PartialMask(t)
    ensures |Built(s, spans, tok)| == LastEnd(spans) <= |s|
    ensures forall i :: 0 <= i < LastEnd(spans) ==> Built(s, spans, tok)[i] == StarAt(s, spans, i)
  {
    if spans != [] {
      var n := |spans| - 1;
      FitsPrefix(s, spans, n);
      PartialBuilt(s, spans[..n], tok);
      PartialMaskAt(s, spans[n], spans[n].start);
      forall i | 0 <= i < LastEnd(spans) ensures Built(s, spans, tok)[i] == StarAt(s, spans, i) {
        StarredSplit(spans, i);
        PartialPiece(s, Built(s, spans[..n], tok), spans[..n], spans[n], i);
      }
    }
  }

  /** One more piece, at position i. */
  lemma PartialPiece(s: string, b: string, init: seq<Span>, x: Span, i: nat)
    requires InOrder(init) && NonEmpty(x) && InRange(s, x) && 0 <= LastEnd(init) <= x.start && i < x.end
    requires |b| == LastEnd(init) && forall i :: 0 <= i < LastEnd(init) ==> b[i] == StarAt(s, init, i)
    ensures |PartialMask(TextOf(s, x))| == Len(x)
    ensures (b + s[LastEnd(init)..x.start] + PartialMask(TextOf(s, x)))[i]
            == if Starred(init, i) || x.start <= i < x.end - 4 then '*' else s[i]
  {
    PartialMaskAt(s, x, if i < x.start then x.start else i);
    if i >= LastEnd(init) { NotStarredAfter(init, i); }
  }

  lemma StarredSplit(spans: seq<Span>, i: int)
    requires InOrder(spans) && spans != []
    ensures var n := |spans| - 1;
            Starred(spans, i) <==> Starred(spans[..n], i) || spans[n].start <= i < spans[n].end - 4
  {
    var n := |spans| - 1;
    if Starred(spans[..n], i) {
      var k :| 0 <= k < n && spans[..n][k].start <= i < spans[..n][k].end - 4;
      assert spans[k].start <= i < spans[k].end - 4;
    }
    if Starred(spans, i) && !(spans[n].start <= i < spans[n].end - 4) {
      var k :| 0 <= k < |spans| && spans[k].start <= i < spans[k].end - 4;
      assert spans[..n][k].start <= i < spans[..n][k].end - 4;
    }
  }

  lemma NotStarredAfter(spans: seq<Span>, i: int)
    requires InOrder(spans) && LastEnd(spans) <= i
    ensures !Starred(spans, i)
  {}

  /** Partial mode keeps the length and stars exactly the positions more than four before the
      end of a span. */
  lemma PartialExact(s: string, spans: seq<Span>, pseudonym: (string, string) -> string)
    requires Fits(s, spans)
    ensures var out := Rewritten(s, spans, ModeToken(Partial, pseudonym));
            |out| == |s| && forall i :: 0 <= i < |s| ==> out[i] == StarAt(s, spans, i)
  {
    var tok := ModeToken(Partial, pseudonym);
    PartialBuilt(s, spans, tok);
    FitsPrefix(s, spans, |spans|);
    assert spans[..|spans|] == spans;
    forall i | LastEnd(spans) <= i < |s| ensures !Starred(spans, i) { NotStarredAfter(spans, i); }
  }

  // ----- the guarded rewriter

  ghost function Kinds(spans: seq<Span>): multiset<string> {
    if spans == [] then multiset{} else Kinds(spans[..|spans| - 1]) + multiset{spans[|spans| - 1].kind}
  }

  /** The counts of all kinds sum to the number of spans. */
  lemma {:induction false} KindsTotal(spans: seq<Span>)
    ensures |Kinds(spans)| == |spans|
  {
    if spans != [] { KindsTotal(spans[..|spans| - 1]); }
  }

  ghost predicate CountsAre(counts: map<string, int>, kinds: multiset<string>) {
    forall k :: (k in counts <==> k in kinds) && (k in counts ==> counts[k] == kinds[k])
  }

  lemma CountsUnique(c: map<string, int>, d: map<string, int>, kinds: multiset<string>)
    requires CountsAre(c, kinds) && CountsAre(d, kinds)
    ensures c == d
  {
    forall k ensures k in c <==> k in d { assert k in c <==> k in kinds; assert k in d <==> k in kinds; }
  }

  function Bump(counts: map<string, int>, kind: string): map<string, int> {
    counts[kind := 1 + if kind in counts then counts[kind] else 0]
  }

  lemma KindsSnoc(xs: seq<Span>, x: Span, counts: map<string, int>)
    requires CountsAre(counts, Kinds(xs))
    ensures CountsAre(Bump(counts, x.kind), Kinds(xs + [x]))
  {
    assert (xs + [x])[..|xs|] == xs;
  }

  lemma BuiltSnoc(s: string, xs: seq<Span>, x: Span, tok: Token)
    requires Fits(s, xs) && NonEmpty(x) && InRange(s, x) && LastEnd(xs) <= x.start
    ensures Fits(s, xs + [x]) && 0 <= LastEnd(xs)
    ensures Built(s, xs + [x], tok) == Built(s, xs, tok) + s[LastEnd(xs)..x.start] + tok(x, TextOf(s, x))
  {
    assert (xs + [x])[..|xs|] == xs;
    FitsPrefix(s, xs, |xs|);
    assert xs[..|xs|] == xs;
  }

  /** Why the guard skipped a span. */
  ghost predicate Skippable(s: string, kept: seq<Span>, x: Span) {
    x.end <= x.start || x.end > |s| || x.start < 0 || exists c :: c in kept && c.start <= x.start < c.end
  }

  /** What the guard keeps of the spans seen: it fits, and each span left out has a reason. */
  ghost predicate Keeps(s: string, seen: seq<Span>, kept: seq<Span>) {
    && Fits(s, kept)
    && (forall x :: x in kept ==> x in seen)
    && (forall x :: x in seen && x !in kept ==> Skippable(s, kept, x))
  }

  lemma KeepOne(s: string, seen: seq<Span>, kept: seq<Span>, sp: Span)
    requires Keeps(s, seen, kept) && Fits(s, kept + [sp])
    ensures Keeps(s, seen + [sp], kept + [sp])
  {
    forall x | x in seen + [sp] && x !in kept + [sp] ensures Skippable(s, kept + [sp], x) {
      assert x in seen && x !in kept;
      if exists c :: c in kept && c.start <= x.start < c.end {
        var c :| c in kept && c.start <= x.start < c.end;
        assert c in kept + [sp];
      }
    }
  }

  lemma SkipOne(s: string, seen: seq<Span>, kept: seq<Span>, sp: Span)
    requires Keeps(s, seen, kept) && forall c :: c in seen ==> c.start <= sp.start
    requires sp.start < LastEnd(kept) || sp.end > |s| || sp.end <= sp.start
    ensures Keeps(s, seen + [sp], kept)
  {
    if !(sp.end > |s| || sp.end <= sp.start || sp.start < 0) {
      var c := kept[|kept| - 1];
      assert c in kept && c in seen;
      assert Skippable(s, kept, sp);
    }
  }

  /** Spans that fit are all kept. */
  lemma KeepsAll(s: string, spans: seq<Span>, kept: seq<Span>)
    requires Fits(s, spans) && Keeps(s, spans, kept)
    ensures kept == spans
  {
    forall x | x in spans ensures x in kept {
      if x !in kept {
        assert Skippable(s, kept, x);
        var c :| c in kept && c.start <= x.start < c.end;
        ChosenApart(spans, c, x);
        assert false;
      }
    }
    InOrderUnique(kept, spans);
  }

  /** The loop's state once it has seen some spans. */
  ghost predicate Applied(s: string, seen: seq<Span>, kept: seq<Span>, tok: Token, b: string, prev: int,
                          counts: map<string, int>) {
    && Keeps(s, seen, kept)
    && 0 <= prev <= |s| && prev == LastEnd(kept)
    && b == Built(s, kept, tok)
    && CountsAre(counts, Kinds(kept))
  }

  lemma AppliedOne(s: string, seen: seq<Span>, kept: seq<Span>, tok: Token, b: string, prev: int,
                   counts: map<string, int>, sp: Span)
    requires Applied(s, seen, kept, tok, b, prev, counts) && prev <= sp.start < sp.end <= |s|
    ensures Applied(s, seen + [sp], kept + [sp], tok,
                    b + s[prev..sp.start] + tok(sp, s[sp.start..sp.end]), sp.end, Bump(counts, sp.kind))
  {
    BuiltSnoc(s, kept, sp, tok);
    KindsSnoc(kept, sp, counts);
    KeepOne(s, seen, kept, sp);
  }

  ghost predicate Ascending(xs: seq<Span>) { forall i, j :: 0 <= i < j < |xs| ==> xs[i].start <= xs[j].start }

  lemma AppliedNone(s: string, seen: seq<Span>, kept: seq<Span>, tok: Token, b: string, prev: int,
                    counts: map<string, int>, sp: Span)
    requires Applied(s, seen, kept, tok, b, prev, counts) && Ascending(seen + [sp])
    requires sp.start < prev || sp.end > |s| || sp.end <= sp.start
    ensures Applied(s, seen + [sp], kept, tok, b, prev, counts)
  {
    forall c | c in seen ensures c.start <= sp.start {
      var k :| 0 <= k < |seen| && seen[k] == c;
      assert (seen + [sp])[k].start <= (seen + [sp])[|seen|].start;
    }
    SkipOne(s, seen, kept, sp);
  }

  /** The text is rewritten at the kept spans and the counts are theirs by kind. */
  ghost predicate RewrittenAt(s: string, kept: seq<Span>, tok: Token, out: string, counts: map<string, int>) {
    Fits(s, kept) && out == Rewritten(s, kept, tok) && CountsAre(counts, Kinds(kept))
  }

  ghost predicate RewrittenKeeping(s: string, spans: seq<Span>, tok: Token, out: string, counts: map<string, int>) {
    exists kept :: Keeps(s, spans, kept) && RewrittenAt(s, kept, tok, out, counts)
  }

  method ApplyOrdered(s: string, ordered: seq<Span>, mode: Mode, pseudonym: (string, string) -> string)
    returns (out: string, counts: map<string, int>)
    requires Ascending(ordered)
    ensures RewrittenKeeping(s, ordered, ModeToken(mode, pseudonym), out, counts)
  {
    ghost var tok := ModeToken(mode, pseudonym);
    var b, prev := "", 0;
    counts := map[];
    ghost var kept: seq<Span> := [];
    for i := 0 to |ordered|
      invariant Applied(s, ordered[..i], kept, tok, b, prev, counts)
    {
      var sp := ordered[i];
      assert ordered[..i + 1] == ordered[..i] + [sp];
      if sp.start < prev || sp.end > |s| || sp.end <= sp.start {
        AppliedNone(s, ordered[..i], kept, tok, b, prev, counts, sp);
        continue;
      }
      AppliedOne(s, ordered[..i], kept, tok, b, prev, counts, sp);
      b := b + s[prev..sp.start];
      b := b + Replacement(mode, pseudonym, sp.kind, s[sp.start..sp.end]);
      counts := Bump(counts, sp.kind);
      kept := kept + [sp];
      prev := sp.end;
    }
    assert ordered[..|ordered|] == ordered;
    out := b + s[prev..];
    assert Keeps(s, ordered, kept) && RewrittenAt(s, kept, tok, out, counts);
  }

  /** Apply works on any spans: what it keeps fits, and it keeps everything when all fit. */
  method Apply(s: string, spans: seq<Span>, mode: Mode, pseudonym: (string, string) -> string)
    returns (out: string, counts: map<string, int>)
    ensures RewrittenKeeping(s, spans, ModeToken(mode, pseudonym), out, counts)
    ensures Fits(s, spans) ==> out == Rewritten(s, spans, ModeToken(mode, pseudonym)) && CountsAre(counts, Kinds(spans))
  {
    var ordered := Sort(StartLe(), spans);
    assert forall i, j :: 0 <= i < j < |ordered| ==> StartLe()(ordered[i], ordered[j]);
    SameElements(spans, ordered);
    out, counts := ApplyOrdered(s, ordered, mode, pseudonym);
    ghost var kept :| Keeps(s, ordered, kept) && RewrittenAt(s, kept, ModeToken(mode, pseudonym), out, counts);
    KeepsSame(s, ordered, spans, kept);
    if Fits(s, spans) { KeepsAll(s, spans, kept); }
  }

  lemma KeepsSame(s: string, ordered: seq<Span>, spans: seq<Span>, kept: seq<Span>)
    requires Keeps(s, ordered, kept) && forall x :: x in spans <==> x in ordered
    ensures Keeps(s, spans, kept)
  {}

  // ----- detection

  datatype Detector = Detector(kind: string, find: string -> seq<Span>)

  ghost predicate FindsInRange(ds: seq<Detector>, s: string) {
    forall i, x :: 0 <= i < |ds| && x in ds[i].find(s) ==> InRange(s, x)
  }

  ghost function Candidates(ds: seq<Detector>, s: string, enabled: seq<string>): seq<Span> {
    if ds == [] then []
    else
      var n := |ds| - 1;
      Candidates(ds[..n], s, enabled) + if ds[n].kind in enabled then ds[n].find(s) else []
  }

  method Scan(ds: seq<Detector>, s: string, enabled: seq<string>) returns (chosen: seq<Span>)
    ensures chosen == Chosen(Candidates(ds, s, enabled))
  {
    var spans: seq<Span> := [];
    for i := 0 to |ds|
      invariant spans == Candidates(ds[..i], s, enabled)
    {
      assert ds[..i + 1][..i] == ds[..i];
      if ds[i].kind in enabled { spans := spans + ds[i].find(s); }
    }
    assert ds[..|ds|] == ds;
    chosen := PreferLonger(spans);
    SelectionUnique(spans, spans, chosen, Chosen(spans));
  }

  lemma {:induction false} CandidatesInRange(ds: seq<Detector>, s: string, enabled: seq<string>)
    requires FindsInRange(ds, s)
    ensures forall x :: x in Candidates(ds, s, enabled) ==> InRange(s, x)
  {
    if ds != [] { CandidatesInRange(ds[..|ds| - 1], s, enabled); }
  }

  ghost predicate FoundBy(ds: seq<Detector>, s: string, enabled: seq<string>, x: Span, d: int) {
    0 <= d < |ds| && ds[d].kind in enabled && x in ds[d].find(s)
  }

  lemma FoundByPrefix(ds: seq<Detector>, s: string, enabled: seq<string>, x: Span, n: nat)
    requires |ds| == n + 1
    ensures (exists d :: FoundBy(ds, s, enabled, x, d)) <==>
            FoundBy(ds, s, enabled, x, n) || exists d :: FoundBy(ds[..n], s, enabled, x, d)
  {
    if exists d :: FoundBy(ds, s, enabled, x, d) {
      var d :| FoundBy(ds, s, enabled, x, d);
      assert d < n ==> FoundBy(ds[..n], s, enabled, x, d);
    }
    if exists d :: FoundBy(ds[..n], s, enabled, x, d) {
      var d :| FoundBy(ds[..n], s, enabled, x, d);
      assert FoundBy(ds, s, enabled, x, d);
    }
  }

  /** The candidates are exactly what the detectors of the enabled kinds find. */
  lemma {:induction false} CandidatesExact(ds: seq<Detector>, s: string, enabled: seq<string>, x: Span)
    ensures x in Candidates(ds, s, enabled) <==> exists d :: FoundBy(ds, s, enabled, x, d)
  {
    if ds != [] {
      CandidatesExact(ds[..|ds| - 1], s, enabled, x);
      FoundByPrefix(ds, s, enabled, x, |ds| - 1);
    }
  }

  /** Nothing an enabled detector finds escapes: it is chosen, or overlaps a chosen span that
      is at least as long. */
  lemma ScanCovers(ds: seq<Detector>, s: string, enabled: seq<string>, d: nat, x: Span)
    requires d < |ds| && ds[d].kind in enabled && x in ds[d].find(s) && NonEmpty(x)
    ensures exists c :: c in Chosen(Candidates(ds, s, enabled)) && Overlap(c, x) && Len(c) >= Len(x)
  {
    assert FoundBy(ds, s, enabled, x, d);
    CandidatesExact(ds, s, enabled, x);
    var chosen := Chosen(Candidates(ds, s, enabled));
    if x in chosen {
      assert Overlap(x, x);
    } else {
      assert Displaced(x, chosen);
    }
  }

  /** Only enabled detectors are heard. */
  lemma ScanHearsEnabled(ds: seq<Detector>, s: string, enabled: seq<string>, x: Span)
    requires x in Chosen(Candidates(ds, s, enabled))
    ensures exists d :: FoundBy(ds, s, enabled, x, d)
  {
    CandidatesExact(ds, s, enabled, x);
  }

  lemma ScanFits(ds: seq<Detector>, s: string, enabled: seq<string>)
    requires FindsInRange(ds, s)
    ensures Fits(s, Chosen(Candidates(ds, s, enabled)))
  {
    CandidatesInRange(ds, s, enabled);
    var chosen := Chosen(Candidates(ds, s, enabled));
    forall i | 0 <= i < |chosen| ensures InRange(s, chosen[i]) { assert chosen[i] in Candidates(ds, s, enabled); }
  }

  // ----- the log masker

  datatype Masked = Line(line: string, counts: map<string, int>) | HandOff(line: string)

  const MASK_KINDS: seq<string> := ["email", "phone_us", "phone_in", "ssn", "aadhaar", "pan"]

  method CountKinds(spans: seq<Span>) returns (counts: map<string, int>)
    ensures CountsAre(counts, Kinds(spans))
  {
    counts := map[];
    for i := 0 to |spans|
      invariant CountsAre(counts, Kinds(spans[..i]))
    {
      assert spans[..i + 1] == spans[..i] + [spans[i]];
      KindsSnoc(spans[..i], spans[i], counts);
      counts := Bump(counts, spans[i].kind);
    }
    assert spans[..|spans|] == spans;
  }

  function Enabled(kinds: seq<string>): seq<string> { if kinds == [] then MASK_KINDS else kinds }

  /** The six kinds masked by default, and only when no kinds are given. */
  lemma MaskKindsExact(kind: string, kinds: seq<string>)
    ensures kind in Enabled([]) <==>
            || kind == "email" || kind == "phone_us" || kind == "phone_in"
            || kind == "ssn" || kind == "aadhaar" || kind == "pan"
    ensures kinds != [] ==> Enabled(kinds) == kinds
  {}

  /** Shadow mode reports the counts of the masking it does not perform; only long lines that
      are to be masked go to the hand-off. */
  method MaskWith(ds: seq<Detector>, line: string, maxInline: int, shadow: bool, kinds: seq<string>, mode: Mode,
                  pseudonym: (string, string) -> string)
    returns (r: Masked)
    requires FindsInRange(ds, line)
    ensures var chosen := Chosen(Candidates(ds, line, Enabled(kinds)));
            && Fits(line, chosen)
            && (r.HandOff? <==> |line| > maxInline && !shadow)
            && (r.Line? ==> CountsAre(r.counts, Kinds(chosen)))
            && (r.Line? ==> r.line == if shadow then line else Rewritten(line, chosen, ModeToken(mode, pseudonym)))
  {
    ScanFits(ds, line, Enabled(kinds));
    if |line| > maxInline {
      if shadow {
        var spans := Scan(ds, line, Enabled(kinds));
        var counts := CountKinds(spans);
        return Line(line, counts);
      }
      return HandOff(line);
    }
    var spans := Scan(ds, line, Enabled(kinds));
    if shadow {
      var counts := CountKinds(spans);
      return Line(line, counts);
    }
    var out, counts := Apply(line, spans, mode, pseudonym);
    r := Line(out, counts);
  }
}
