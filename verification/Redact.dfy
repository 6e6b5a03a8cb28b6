/** Redaction jobs: two detection windows, a checkpoint between them, and tenant policies. */
module Redact {
  import opened Basics
  import opened Spans
  import opened Rewrite

  datatype RedactCounts = RedactCounts(emails: int, phones: int, ssns: int)

  datatype RedactResult = RedactResult(text: string, counts: RedactCounts, policyVersion: int)

  const ZERO := RedactCounts(0, 0, 0)

  /** The detector kinds of the two windows. */
  const STEP_KINDS: seq<seq<string>> := [["email", "phone_us"], ["ssn"]]

  function KindToken(kind: string): string {
    if kind == "email" then "[EMAIL_REDACTED]"
    else if kind == "phone_us" then "[PHONE_REDACTED]"
    else if kind == "ssn" then "[SSN_REDACTED]"
    else Bracketed(kind)
  }

  ghost function RedactToken(): Token { (x: Span, t: string) => KindToken(x.kind) }

  function BumpKind(c: RedactCounts, kind: string): RedactCounts {
    if kind == "email" then c.(emails := c.emails + 1)
    else if kind == "phone_us" then c.(phones := c.phones + 1)
    else if kind == "ssn" then c.(ssns := c.ssns + 1)
    else c
  }

  ghost function Plus(c: RedactCounts, kinds: multiset<string>): RedactCounts {
    RedactCounts(c.emails + kinds["email"], c.phones + kinds["phone_us"], c.ssns + kinds["ssn"])
  }

  // ----- the unguarded rewriter

  /** Exactly the spans on which no slice expression of the loop is out of range. They may be
      empty, or even end before they start. */
  ghost predicate Sliceable(text: string, spans: seq<Span>) {
    && (forall k :: 0 <= k < |spans| ==> 0 <= LastEnd(spans[..k]) <= spans[k].start <= |text|)
    && 0 <= LastEnd(spans) <= |text|
  }

  lemma SliceablePrefix(text: string, spans: seq<Span>, n: nat)
    requires Sliceable(text, spans) && n <= |spans|
    ensures Sliceable(text, spans[..n])
  {
    forall k | 0 <= k < n ensures spans[..n][..k] == spans[..k] {}
    if n == |spans| { assert spans[..n] == spans; }
  }

  /** Everything up to the end of the last span. */
  ghost function Splice(text: string, spans: seq<Span>): string
    requires Sliceable(text, spans)
  {
    if spans == [] then ""
    else
      var n := |spans| - 1;
      SliceablePrefix(text, spans, n);
      Splice(text, spans[..n]) + text[LastEnd(spans[..n])..spans[n].start] + KindToken(spans[n].kind)
  }

  /** What the replacements add, an empty span adding its whole token. */
  ghost function Growth(spans: seq<Span>): int {
    if spans == [] then 0
    else Growth(spans[..|spans| - 1]) + |KindToken(spans[|spans| - 1].kind)| - Len(spans[|spans| - 1])
  }

  lemma {:induction false} SpliceLength(text: string, spans: seq<Span>)
    requires Sliceable(text, spans)
    ensures |Splice(text, spans)| == LastEnd(spans) + Growth(spans)
  {
    if spans != [] {
      SliceablePrefix(text, spans, |spans| - 1);
      SpliceLength(text, spans[..|spans| - 1]);
    }
  }

  /** On spans that fit the text, splicing without a guard is the guarded rewriting with
      another token table. */
  lemma {:induction false} SpliceIsBuilt(text: string, spans: seq<Span>)
    requires Fits(text, spans)
    ensures Sliceable(text, spans) && Splice(text, spans) == Built(text, spans, RedactToken())
  {
    FitsSliceable(text, spans);
    if spans != [] {
      FitsPrefix(text, spans, |spans| - 1);
      SpliceIsBuilt(text, spans[..|spans| - 1]);
    }
  }

  lemma FitsSliceable(text: string, spans: seq<Span>)
    requires Fits(text, spans)
    ensures Sliceable(text, spans)
  {
    forall k | 0 <= k < |spans| ensures 0 <= LastEnd(spans[..k]) <= spans[k].start <= |text| {
      FitsPrefix(text, spans, k);
    }
  }

  /** The loop's state after some of the spans. */
  ghost predicate Spliced(text: string, done: seq<Span>, b: string, prev: int, was: RedactCounts,
                          counts: RedactCounts) {
    && Sliceable(text, done)
    && prev == LastEnd(done)
    && b == Splice(text, done)
    && counts == Plus(was, Kinds(done))
  }

  lemma SliceableSnoc(text: string, done: seq<Span>, sp: Span)
    requires Sliceable(text, done) && LastEnd(done) <= sp.start <= |text| && 0 <= sp.end <= |text|
    ensures Sliceable(text, done + [sp]) && (done + [sp])[..|done|] == done
  {
    forall k | 0 <= k <= |done| ensures (done + [sp])[..k] == done[..k] {}
    assert done[..|done|] == done;
  }

  lemma SliceAt(text: string, spans: seq<Span>, i: nat)
    requires Sliceable(text, spans) && i < |spans|
    ensures LastEnd(spans[..i]) <= spans[i].start <= |text| && 0 <= spans[i].end <= |text|
    ensures spans[..i + 1] == spans[..i] + [spans[i]]
  {
    SliceablePrefix(text, spans, i + 1);
    assert LastEnd(spans[..i + 1]) == spans[i].end;
  }

  lemma SpliceMeans(text: string, spans: seq<Span>)
    requires Sliceable(text, spans)
    ensures |Splice(text, spans) + text[LastEnd(spans)..]| == |text| + Growth(spans)
    ensures Fits(text, spans) ==>
              Splice(text, spans) + text[LastEnd(spans)..] == Rewritten(text, spans, RedactToken())
  {
    SpliceLength(text, spans);
    if Fits(text, spans) { SpliceIsBuilt(text, spans); }
  }

  lemma SplicedOne(text: string, done: seq<Span>, b: string, prev: int, was: RedactCounts, counts: RedactCounts,
                   sp: Span)
    requires Spliced(text, done, b, prev, was, counts) && prev <= sp.start <= |text| && 0 <= sp.end <= |text|
    ensures Spliced(text, done + [sp], b + text[prev..sp.start] + KindToken(sp.kind), sp.end, was,
                    BumpKind(counts, sp.kind))
  {
    SliceableSnoc(text, done, sp);
  }

  /** Where no slice is out of range, the loop writes each gap and each token in order. Where
      every span fits, that is the same rewriting as `Apply`'s with its own token table. */
  method ApplySpans(text: string, was: RedactCounts, spans: seq<Span>) returns (out: string, counts: RedactCounts)
    requires Sliceable(text, spans)
    ensures out == Splice(text, spans) + text[LastEnd(spans)..] && counts == Plus(was, Kinds(spans))
    ensures |out| == |text| + Growth(spans)
    ensures Fits(text, spans) ==> out == Rewritten(text, spans, RedactToken())
  {
    var b, prev := "", 0;
    counts := was;
    for i := 0 to |spans|
      invariant Spliced(text, spans[..i], b, prev, was, counts)
    {
      var sp := spans[i];
      SliceAt(text, spans, i);
      SplicedOne(text, spans[..i], b, prev, was, counts, sp);
      b := b + text[prev..sp.start];
      b := b + KindToken(sp.kind);
      counts := BumpKind(counts, sp.kind);
      prev := sp.end;
    }
    assert spans[..|spans|] == spans;
    out := b + text[prev..];
    SpliceMeans(text, spans);
  }

  ghost predicate Counted(kind: string) { kind == "email" || kind == "phone_us" || kind == "ssn" }

  /** The two token tables differ on exactly the counted kinds. */
  lemma TablesDiffer(x: Span, t: string, pseudonym: (string, string) -> string)
    ensures RedactToken()(x, t) != ModeToken(Mode.Redact, pseudonym)(x, t) <==> Counted(x.kind)
  {
    if Counted(x.kind) { assert |KindToken(x.kind)| > |Bracketed(x.kind)|; }
  }

  /** Both rewriters compute `Rewritten` with their own table, so without counted kinds their
      results are equal. */
  lemma RewritersAgree(s: string, spans: seq<Span>, pseudonym: (string, string) -> string)
    requires Fits(s, spans)
    ensures (forall x :: x in spans ==> !Counted(x.kind)) ==>
              Rewritten(s, spans, RedactToken()) == Rewritten(s, spans, ModeToken(Mode.Redact, pseudonym))
  {
    if forall x :: x in spans ==> !Counted(x.kind) {
      forall i | 0 <= i < |spans|
        ensures RedactToken()(spans[i], TextOf(s, spans[i]))
                == ModeToken(Mode.Redact, pseudonym)(spans[i], TextOf(s, spans[i]))
      {
        TablesDiffer(spans[i], TextOf(s, spans[i]), pseudonym);
      }
      SameTokens(s, spans, RedactToken(), ModeToken(Mode.Redact, pseudonym));
    }
  }

  /** Whatever the kinds, both rewriters leave the text outside the spans alone: character i,
      after the first k spans, is in both results, each moved by its own replacements. */
  lemma OutsideAgrees(s: string, spans: seq<Span>, pseudonym: (string, string) -> string, k: nat, i: nat)
    requires Fits(s, spans) && k <= |spans| && i < |s|
    requires Fits(s, spans[..k]) && LastEnd(spans[..k]) <= i && (k < |spans| ==> i < spans[k].start)
    ensures var a, b := Rewritten(s, spans, RedactToken()), Rewritten(s, spans, ModeToken(Mode.Redact, pseudonym));
            var p := i + Delta(s, spans[..k], RedactToken());
            var q := i + Delta(s, spans[..k], ModeToken(Mode.Redact, pseudonym));
            0 <= p < |a| && 0 <= q < |b| && a[p] == b[q] == s[i]
  {
    OutsidePreserved(s, spans, RedactToken(), k, i);
    OutsidePreserved(s, spans, ModeToken(Mode.Redact, pseudonym), k, i);
  }

  // ----- windows

  ghost predicate Sound(ds: seq<Detector>) {
    forall i, s, x :: 0 <= i < |ds| && x in ds[i].find(s) ==> InRange(s, x) && x.kind == ds[i].kind
  }

  ghost function Found(ds: seq<Detector>, text: string, kinds: seq<string>): (r: seq<Span>)
    requires Sound(ds)
    ensures Fits(text, r)
  {
    ScanFits(ds, text, kinds);
    Chosen(Candidates(ds, text, kinds))
  }

  /** One window: replace everything of its kinds, and forget any policy version. */
  ghost function Window(ds: seq<Detector>, r: RedactResult, i: nat): RedactResult
    requires Sound(ds) && i < |STEP_KINDS|
  {
    var spans := Found(ds, r.text, STEP_KINDS[i]);
    RedactResult(Rewritten(r.text, spans, RedactToken()), Plus(r.counts, Kinds(spans)), 0)
  }

  function Untouched(text: string): RedactResult { RedactResult(text, ZERO, 0) }

  /** Redaction in one go. */
  ghost function Redacted(ds: seq<Detector>, input: string): RedactResult
    requires Sound(ds)
  {
    Window(ds, Window(ds, Untouched(input), 0), 1)
  }

  method ApplyClassWindow(ds: seq<Detector>, prior: RedactResult, i: nat) returns (r: RedactResult)
    requires Sound(ds) && i < |STEP_KINDS|
    ensures r == Window(ds, prior, i)
  {
    var spans := Scan(ds, prior.text, STEP_KINDS[i]);
    assert spans == Found(ds, prior.text, STEP_KINDS[i]);
    FitsSliceable(prior.text, spans);
    var text, counts := ApplySpans(prior.text, prior.counts, spans);
    r := RedactResult(text, counts, 0);
  }

  method RedactPII(ds: seq<Detector>, input: string) returns (r: RedactResult)
    requires Sound(ds)
    ensures r == Redacted(ds, input)
  {
    var text, counts := input, ZERO;
    for i := 0 to |STEP_KINDS|
      invariant i == 0 ==> RedactResult(text, counts, 0) == Untouched(input)
      invariant i == 1 ==> RedactResult(text, counts, 0) == Window(ds, Untouched(input), 0)
      invariant i == 2 ==> RedactResult(text, counts, 0) == Redacted(ds, input)
    {
      var spans := Scan(ds, text, STEP_KINDS[i]);
      assert spans == Found(ds, text, STEP_KINDS[i]);
      FitsSliceable(text, spans);
      text, counts := ApplySpans(text, counts, spans);
    }
    r := RedactResult(text, counts, 0);
  }

  /** Every replacement of a window is counted, once. */
  lemma WindowCounts(ds: seq<Detector>, r: RedactResult, i: nat)
    requires Sound(ds) && i < |STEP_KINDS|
    ensures Sum(Window(ds, r, i).counts) == Sum(r.counts) + |Found(ds, r.text, STEP_KINDS[i])|
  {
    var kinds := STEP_KINDS[i];
    var spans := Found(ds, r.text, kinds);
    CandidateKinds(ds, r.text, kinds);
    forall x | x in spans ensures Counted(x.kind) { assert x in Candidates(ds, r.text, kinds); }
    CountedTotal(spans);
  }

  function Sum(c: RedactCounts): int { c.emails + c.phones + c.ssns }

  lemma {:induction false} CountedTotal(spans: seq<Span>)
    requires forall x :: x in spans ==> Counted(x.kind)
    ensures Sum(Plus(ZERO, Kinds(spans))) == |spans|
  {
    if spans != [] {
      assert spans[|spans| - 1] in spans && forall x :: x in spans[..|spans| - 1] ==> x in spans;
      CountedTotal(spans[..|spans| - 1]);
    }
  }

  lemma {:induction false} CandidateKinds(ds: seq<Detector>, s: string, kinds: seq<string>)
    requires Sound(ds)
    ensures forall x :: x in Candidates(ds, s, kinds) ==> x.kind in kinds
  {
    if ds != [] { CandidateKinds(ds[..|ds| - 1], s, kinds); }
  }

  // ----- the job

  datatype Doc = Doc(mode: string, detectors: seq<string>, version: int)

  datatype Loaded = NoLoader | LoadError | NoPolicy | Policy(doc: Doc)

  /** A checkpoint as it was read back; its value is None when it does not decode. */
  datatype Saved = Saved(step: int, value: Option<RedactResult>)

  /** What a tenant's policy asks for: partial masking or redaction of its own detectors. */
  ghost function UnderPolicy(ds: seq<Detector>, text: string, doc: Doc,
                             pseudonym: (string, string) -> string): RedactResult
    requires Sound(ds)
  {
    var spans := Found(ds, text, doc.detectors);
    var tok := if doc.mode == "partial" then ModeToken(Partial, pseudonym) else RedactToken();
    RedactResult(Rewritten(text, spans, tok), Plus(ZERO, Kinds(spans)), doc.version)
  }

  function CountOf(counts: map<string, int>, kind: string): int { if kind in counts then counts[kind] else 0 }

  function ThreeCounts(counts: map<string, int>): RedactCounts {
    RedactCounts(CountOf(counts, "email"), CountOf(counts, "phone_us"), CountOf(counts, "ssn"))
  }

  lemma CountsRead(counts: map<string, int>, kinds: multiset<string>)
    requires CountsAre(counts, kinds)
    ensures ThreeCounts(counts) == Plus(ZERO, kinds)
  {}

  method ApplyPolicy(ds: seq<Detector>, text: string, doc: Doc, pseudonym: (string, string) -> string)
    returns (r: RedactResult)
    requires Sound(ds)
    ensures r == UnderPolicy(ds, text, doc, pseudonym)
  {
    var spans := Scan(ds, text, doc.detectors);
    assert spans == Found(ds, text, doc.detectors);
    if doc.mode == "partial" {
      var masked, counts := Rewrite.Apply(text, spans, Partial, pseudonym);
      CountsRead(counts, Kinds(spans));
      r := RedactResult(masked, ThreeCounts(counts), doc.version);
    } else {
      FitsSliceable(text, spans);
      var masked, counts := ApplySpans(text, ZERO, spans);
      r := RedactResult(masked, counts, doc.version);
    }
  }

  /** Whether a checkpoint, if one is used at all, holds window 0 of the input. */
  ghost predicate Faithful(ds: seq<Detector>, text: string, saved: Option<Saved>)
    requires Sound(ds)
  {
    saved.Some? && saved.value.step >= 1 && saved.value.value.Some? ==>
      saved.value.value == Some(Window(ds, Untouched(text), 0))
  }

  /** What one call of the job's runner returns and which checkpoint it leaves. */
  ghost function Outcome(ds: seq<Detector>, input: Option<string>, tenant: string, loaded: Loaded, saved: Option<Saved>,
                         saveOk: bool, pseudonym: (string, string) -> string): (Option<RedactResult>, Option<Saved>)
    requires Sound(ds)
  {
    if input.None? || (tenant != "" && loaded.LoadError?) then (None, None)
    else if tenant != "" && loaded.Policy? then (Some(UnderPolicy(ds, input.value, loaded.doc, pseudonym)), None)
    else if saved.Some? && saved.value.step >= 1 then
      (if saved.value.value.None? then None else Some(Window(ds, saved.value.value.value, 1)), None)
    else
      var partial := Window(ds, Untouched(input.value), 0);
      if saveOk then (Some(Window(ds, partial, 1)), Some(Saved(1, Some(partial)))) else (None, None)
  }

  /** The job's runner. `input` is None when it is not a string; `saveOk` says whether the
      recorder accepts the checkpoint, which the job writes before it goes on. */
  method Run(ds: seq<Detector>, input: Option<string>, tenant: string, loaded: Loaded, saved: Option<Saved>,
             saveOk: bool,
             pseudonym: (string, string) -> string)
    returns (r: Option<RedactResult>, written: Option<Saved>)
    requires Sound(ds)
    ensures (r, written) == Outcome(ds, input, tenant, loaded, saved, saveOk, pseudonym)
    ensures input.None? ==> r.None? && written.None?
    ensures input.Some? && tenant != "" && loaded.LoadError? ==> r.None? && written.None?
    ensures input.Some? && tenant != "" && loaded.Policy? ==>
              r == Some(UnderPolicy(ds, input.value, loaded.doc, pseudonym)) && written.None?
    ensures input.Some? && (tenant == "" || loaded.NoLoader? || loaded.NoPolicy?) ==>
              (Faithful(ds, input.value, saved) && r.Some? ==> r.value == Redacted(ds, input.value))
    ensures input.Some? ==> Faithful(ds, input.value, written)
    ensures input.Some? && (tenant == "" || loaded.NoLoader? || loaded.NoPolicy?) ==>
              (r.None? <==> if saved.Some? && saved.value.step >= 1 then saved.value.value.None? else !saveOk)
  {
    r, written := None, None;
    if input.None? { return; }
    var text := input.value;
    if !loaded.NoLoader? && tenant != "" {
      if loaded.LoadError? { return; }
      if loaded.Policy? {
        var done := ApplyPolicy(ds, text, loaded.doc, pseudonym);
        return Some(done), None;
      }
    }
    var partial;
    if saved.Some? && saved.value.step >= 1 {
      if saved.value.value.None? { return; }
      partial := saved.value.value.value;
    } else {
      partial := ApplyClassWindow(ds, Untouched(text), 0);
      if !saveOk { return; }
      written := Some(Saved(1, Some(partial)));
    }
    var done := ApplyClassWindow(ds, partial, 1);
    r := Some(done);
  }

  // ----- what redaction removes

  /** Each of the three kinds is in exactly one window, and no other kind in any. */
  lemma WindowsExact(kind: string)
    ensures |STEP_KINDS| == 2
    ensures kind in STEP_KINDS[0] <==> kind == "email" || kind == "phone_us"
    ensures kind in STEP_KINDS[1] <==> kind == "ssn"
  {}

  /** A window leaves nothing of its kinds: whatever a detector of the kind finds in its input is
      replaced, or overlaps a replaced span at least as long. */
  lemma WindowRemoves(ds: seq<Detector>, text: string, i: nat, d: nat, x: Span)
    requires Sound(ds) && i < |STEP_KINDS| && d < |ds| && ds[d].kind in STEP_KINDS[i]
    requires x in ds[d].find(text) && NonEmpty(x)
    ensures exists c :: c in Found(ds, text, STEP_KINDS[i]) && Overlap(c, x) && Len(c) >= Len(x)
  {
    ScanCovers(ds, text, STEP_KINDS[i], d, x);
  }

  ghost predicate Replaced(ds: seq<Detector>, text: string, i: nat, x: Span)
    requires Sound(ds) && i < |STEP_KINDS|
  {
    exists c :: c in Found(ds, text, STEP_KINDS[i]) && Overlap(c, x) && Len(c) >= Len(x)
  }

  /** Redaction removes every address and telephone number found in the input, and every social
      security number found in what the first window leaves. */
  lemma RedactedRemoves(ds: seq<Detector>, input: string, d: nat, x: Span)
    requires Sound(ds) && d < |ds| && NonEmpty(x)
    ensures (ds[d].kind == "email" || ds[d].kind == "phone_us") && x in ds[d].find(input) ==>
              Replaced(ds, input, 0, x)
    ensures ds[d].kind == "ssn" && x in ds[d].find(Window(ds, Untouched(input), 0).text) ==>
              Replaced(ds, Window(ds, Untouched(input), 0).text, 1, x)
  {
    WindowsExact(ds[d].kind);
    if (ds[d].kind == "email" || ds[d].kind == "phone_us") && x in ds[d].find(input) {
      WindowRemoves(ds, input, 0, d, x);
    }
    if ds[d].kind == "ssn" && x in ds[d].find(Window(ds, Untouched(input), 0).text) {
      WindowRemoves(ds, Window(ds, Untouched(input), 0).text, 1, d, x);
    }
  }

  lemma OneFound(ds: seq<Detector>, text: string, kinds: seq<string>, x: Span)
    requires Sound(ds) && Candidates(ds, text, kinds) == [x] && NonEmpty(x)
    ensures Found(ds, text, kinds) == [x]
  {
    SelectionUnique([x], [x], [x], Found(ds, text, kinds));
  }

  lemma NoneFound(ds: seq<Detector>, text: string, kinds: seq<string>)
    requires Sound(ds) && Candidates(ds, text, kinds) == []
    ensures Found(ds, text, kinds) == []
  {
    assert IsSelection([], []);
    SelectionUnique([], [], [], Found(ds, text, kinds));
  }

  lemma OneReplaced(text: string, x: Span)
    requires NonEmpty(x) && InRange(text, x)
    ensures Fits(text, [x]) && Fits(text, [])
    ensures Rewritten(text, [x], RedactToken()) == text[..x.start] + KindToken(x.kind) + text[x.end..]
    ensures Rewritten(text, [], RedactToken()) == text
  {
    assert [x][..0] == [];
    assert Built(text, [x], RedactToken()) == "" + text[0..x.start] + KindToken(x.kind);
  }

  lemma OneCounted(was: RedactCounts, x: Span)
    ensures Plus(was, Kinds([])) == was && Plus(was, Kinds([x])) == BumpKind(was, x.kind)
  {
    assert [x][..0] == [];
  }

  lemma WindowOfOne(ds: seq<Detector>, r: RedactResult, i: nat, x: Span)
    requires Sound(ds) && i < |STEP_KINDS| && Candidates(ds, r.text, STEP_KINDS[i]) == [x]
    requires NonEmpty(x) && InRange(r.text, x)
    ensures Window(ds, r, i)
            == RedactResult(r.text[..x.start] + KindToken(x.kind) + r.text[x.end..], BumpKind(r.counts, x.kind), 0)
  {
    OneFound(ds, r.text, STEP_KINDS[i], x);
    OneReplaced(r.text, x);
    OneCounted(r.counts, x);
  }

  lemma WindowOfNone(ds: seq<Detector>, r: RedactResult, i: nat)
    requires Sound(ds) && i < |STEP_KINDS| && Candidates(ds, r.text, STEP_KINDS[i]) == []
    ensures Window(ds, r, i) == RedactResult(r.text, r.counts, 0)
  {
    NoneFound(ds, r.text, STEP_KINDS[i]);
    OneReplaced(r.text + "x", Span("", |r.text|, |r.text| + 1));
    OneCounted(r.counts, Span("", 0, 1));
    assert Fits(r.text, []) && Rewritten(r.text, [], RedactToken()) == r.text;
  }

  /** The result of redacting a text with a single finding, written out. */
  ghost function Single(text: string, x: Span, token: string, counts: RedactCounts): RedactResult
    requires 0 <= x.start <= x.end <= |text|
  {
    RedactResult(text[..x.start] + token + text[x.end..], counts, 0)
  }

  /** One address or telephone number and nothing else: its own token and its own counter. */
  lemma OneFirstWindow(ds: seq<Detector>, text: string, x: Span)
    requires Sound(ds) && Candidates(ds, text, STEP_KINDS[0]) == [x] && NonEmpty(x) && InRange(text, x)
    requires forall t :: Candidates(ds, t, STEP_KINDS[1]) == []
    ensures x.kind == "email" ==> Redacted(ds, text) == Single(text, x, "[EMAIL_REDACTED]", RedactCounts(1, 0, 0))
    ensures x.kind == "phone_us" ==> Redacted(ds, text) == Single(text, x, "[PHONE_REDACTED]", RedactCounts(0, 1, 0))
  {
    WindowOfOne(ds, Untouched(text), 0, x);
    WindowOfNone(ds, Window(ds, Untouched(text), 0), 1);
  }

  /** One social security number and nothing else. */
  lemma OneSecondWindow(ds: seq<Detector>, text: string, x: Span)
    requires Sound(ds) && Candidates(ds, text, STEP_KINDS[0]) == [] && Candidates(ds, text, STEP_KINDS[1]) == [x]
    requires NonEmpty(x) && InRange(text, x) && x.kind == "ssn"
    ensures Redacted(ds, text) == Single(text, x, "[SSN_REDACTED]", RedactCounts(0, 0, 1))
  {
    WindowOfNone(ds, Untouched(text), 0);
    WindowOfOne(ds, Untouched(text), 1, x);
  }

  /** A policy in partial mode stars its findings in place, any other redacts them; both count
      the three kinds and carry the policy's version. */
  lemma UnderPolicyMeans(ds: seq<Detector>, text: string, doc: Doc, pseudonym: (string, string) -> string)
    requires Sound(ds)
    ensures var r, spans := UnderPolicy(ds, text, doc, pseudonym), Found(ds, text, doc.detectors);
            && r.policyVersion == doc.version
            && r.counts == RedactCounts(Kinds(spans)["email"], Kinds(spans)["phone_us"], Kinds(spans)["ssn"])
            && (doc.mode == "partial" ==>
                  |r.text| == |text| && forall i :: 0 <= i < |text| ==> r.text[i] == StarAt(text, spans, i))
            && (doc.mode != "partial" ==> |r.text| == |text| + Growth(spans))
  {
    var spans := Found(ds, text, doc.detectors);
    if doc.mode == "partial" {
      PartialExact(text, spans, pseudonym);
    } else {
      FitsSliceable(text, spans);
      SpliceMeans(text, spans);
      SpliceLength(text, spans);
    }
  }
}
