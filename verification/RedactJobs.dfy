/** Redaction jobs inside the job protocol: what a completed row holds after any crashes. */
module RedactJobs {
  import opened Basics
  import P = Protocol
  import T = ProtocolTheorems
  import S = Spans
  import R = Redact
  import W = Rewrite

  // ----- from the submitted text to the runner

  /** The submitted text as JSON: an object with or without a string member `input`, or not an
      object at all. */
  datatype Parsed = NotObject | Object(input: Option<string>)

  /** The opaque parts: the JSON parser, the encoding of results, stored policies, pseudonyms. */
  datatype Codec = Codec(
    parse: string -> Parsed,
    enc: R.RedactResult -> string,
    dec: string -> R.RedactResult,
    doc: string -> R.Doc,
    pseudonym: (string, string) -> string)

  ghost predicate Lossless(k: Codec) { forall r :: k.dec(k.enc(r)) == r }

  /** What the worker hands to the runner: a JSON object stands for its own `input` member, any
      other text for itself. */
  function TextOf(k: Codec, plain: string): Option<string> {
    match k.parse(plain)
    case NotObject => Some(plain)
    case Object(input) => input
  }

  /** The redaction runner as the protocol sees it. */
  ghost function RedactRunner(ds: seq<W.Detector>, k: Codec): P.Runner
    requires R.Sound(ds)
  {
    P.Runner(
      true,
      (plain: string) =>
        var text := TextOf(k, plain);
        if text.None? then None else Some(k.enc(R.Window(ds, R.Untouched(text.value), 0))),
      (partial: string) => k.enc(R.Window(ds, k.dec(partial), 1)),
      (plain: string, d: string) =>
        var text := TextOf(k, plain);
        if text.None? then "" else k.enc(R.UnderPolicy(ds, text.value, k.doc(d), k.pseudonym)))
  }

  ghost predicate Redacts(c: P.Config, ds: seq<W.Detector>, k: Codec) {
    R.Sound(ds) && Lossless(k) && "redact" in c.runners && c.runners["redact"] == RedactRunner(ds, k)
  }

  // ----- the protocol's step is the runner's method

  function LoadedOf(k: Codec, ch: P.Choice, docs: seq<string>): R.Loaded {
    if ch.policyFails then R.LoadError
    else if docs == [] then R.NoPolicy
    else R.Policy(k.doc(docs[|docs| - 1]))
  }

  function SavedOf(k: Codec, saved: Option<string>): Option<R.Saved> {
    if saved.None? then None else Some(R.Saved(1, Some(k.dec(saved.value))))
  }

  lemma RunnerParts(ds: seq<W.Detector>, k: Codec, plain: string, text: string, d: string, partial: R.RedactResult)
    requires R.Sound(ds) && Lossless(k) && TextOf(k, plain) == Some(text)
    ensures var runner := RedactRunner(ds, k);
            && runner.usesPolicy
            && runner.first(plain) == Some(k.enc(R.Window(ds, R.Untouched(text), 0)))
            && runner.rest(k.enc(partial)) == k.enc(R.Window(ds, partial, 1))
            && runner.underPolicy(plain, d) == k.enc(R.UnderPolicy(ds, text, k.doc(d), k.pseudonym))
  {}

  /** What the runner returned and wrote, against the step of the protocol. */
  ghost predicate Matches(c: P.Config, k: Codec, x: P.Stores, m: P.Msg, fail: bool, o: P.Outcome,
                          r: Option<R.RedactResult>, written: Option<R.Saved>)
    requires "redact" in c.runners
  {
    && (r.None? ==> o == P.Go(x, P.Commit(m, P.FailRow(m, "runner failed"), P.Bury)))
    && (r.Some? && written.None? && !fail ==>
          o == P.Go(x, P.Commit(m, P.Row(P.Completed, k.enc(r.value), m.f.tenant), P.Success)))
    && (r.Some? && written.None? && fail ==> o == P.Go(x, P.Peek(m, k.enc(r.value))))
    && (r.Some? && written.Some? ==>
          && written.value.step == 1 && written.value.value.Some?
          && var partial := k.enc(written.value.value.value);
             && o == P.Go(x, P.SaveInsert(m, fail, partial))
             && c.runners["redact"].rest(partial) == k.enc(r.value))
  }

  lemma FailsAlike(c: P.Config, ds: seq<W.Detector>, k: Codec, x: P.Stores, ch: P.Choice, m: P.Msg, fail: bool,
                   saved: Option<string>, plain: string)
    requires Redacts(c, ds, k) && TypeName(m.f.jobType) == "redact" && (TextOf(k, plain).None? || ch.policyFails)
    ensures P.Run(c, x, ch, m, fail, saved, plain) == P.Go(x, P.Commit(m, P.FailRow(m, "runner failed"), P.Bury))
  {}

  lemma PolicyAlike(c: P.Config, ds: seq<W.Detector>, k: Codec, x: P.Stores, ch: P.Choice, m: P.Msg, fail: bool,
                    saved: Option<string>, plain: string, text: string)
    requires Redacts(c, ds, k) && TypeName(m.f.jobType) == "redact"
    requires TextOf(k, plain) == Some(text) && !ch.policyFails
    requires P.PoliciesOf(x.p, m.f.tenant) != []
    ensures var docs := P.PoliciesOf(x.p, m.f.tenant);
            var done := R.UnderPolicy(ds, text, k.doc(docs[|docs| - 1]), k.pseudonym);
            P.Run(c, x, ch, m, fail, saved, plain) == P.Go(x, P.Computed(m, fail, k.enc(done)))
  {
    var docs := P.PoliciesOf(x.p, m.f.tenant);
    RunnerParts(ds, k, plain, text, docs[|docs| - 1], R.Untouched(text));
  }

  lemma ResumesAlike(c: P.Config, ds: seq<W.Detector>, k: Codec, x: P.Stores, ch: P.Choice, m: P.Msg, fail: bool,
                     saved: string, plain: string)
    requires Redacts(c, ds, k) && TypeName(m.f.jobType) == "redact" && TextOf(k, plain).Some? && !ch.policyFails
    requires P.PoliciesOf(x.p, m.f.tenant) == []
    ensures P.Run(c, x, ch, m, fail, Some(saved), plain)
            == P.Go(x, P.Computed(m, fail, k.enc(R.Window(ds, k.dec(saved), 1))))
  {}

  lemma StartsAlike(c: P.Config, ds: seq<W.Detector>, k: Codec, x: P.Stores, ch: P.Choice, m: P.Msg, fail: bool,
                    plain: string, text: string)
    requires Redacts(c, ds, k) && TypeName(m.f.jobType) == "redact"
    requires TextOf(k, plain) == Some(text) && !ch.policyFails
    requires P.PoliciesOf(x.p, m.f.tenant) == []
    ensures var partial := R.Window(ds, R.Untouched(text), 0);
            && P.Run(c, x, ch, m, fail, None, plain) == P.Go(x, P.SaveInsert(m, fail, k.enc(partial)))
            && c.runners["redact"].rest(k.enc(partial)) == k.enc(R.Window(ds, partial, 1))
  {
    RunnerParts(ds, k, plain, text, "", R.Window(ds, R.Untouched(text), 0));
  }

  /** The protocol's run step does what `Redact.Run` returns: it buries where the runner fails,
      goes on with the encoded result where it finishes, and where it first writes a checkpoint,
      saves that one and finishes from it with the same result. */
  lemma RunnerIsRun(c: P.Config, ds: seq<W.Detector>, k: Codec, x: P.Stores, ch: P.Choice, m: P.Msg, fail: bool,
                    saved: Option<string>, plain: string)
    requires Redacts(c, ds, k) && TypeName(m.f.jobType) == "redact" && m.f.tenant != ""
    ensures var loaded := LoadedOf(k, ch, P.PoliciesOf(x.p, m.f.tenant));
            var (r, written) :=
              R.Outcome(ds, TextOf(k, plain), m.f.tenant, loaded, SavedOf(k, saved), true, k.pseudonym);
            Matches(c, k, x, m, fail, P.Run(c, x, ch, m, fail, saved, plain), r, written)
  {
    if TextOf(k, plain).None? || ch.policyFails {
      FailsAlike(c, ds, k, x, ch, m, fail, saved, plain);
    } else if P.PoliciesOf(x.p, m.f.tenant) != [] {
      PolicyAlike(c, ds, k, x, ch, m, fail, saved, plain, TextOf(k, plain).value);
    } else if saved.Some? {
      ResumesAlike(c, ds, k, x, ch, m, fail, saved.value, plain);
    } else {
      StartsAlike(c, ds, k, x, ch, m, fail, plain, TextOf(k, plain).value);
    }
  }

  // ----- what a completed row holds

  ghost function PolicyResult(ds: seq<W.Detector>, k: Codec, text: string, d: string): R.RedactResult
    requires R.Sound(ds)
  {
    R.UnderPolicy(ds, text, k.doc(d), k.pseudonym)
  }

  ghost predicate Completed(x: P.Stores, j: P.JobId) { j in x.p.rows && x.p.rows[j].state.Completed? }

  /** Job j is a redaction job that was accepted before state i of the run. */
  ghost predicate RedactJob(c: P.Config, states: seq<P.State>, acts: seq<P.Action>, i: nat, j: P.JobId) {
    && T.Supported(c) && P.IsRun(c, states, acts) && i < |states| && j in states[i].x.h.accepted
    && TypeName(states[i].x.h.accepted[j].jobType) == "redact"
  }

  /** Whatever crashes, steals and resumes a redaction job went through, its completed row holds
      the redaction of the text the worker read from the submission: by `RedactPII` or under a
      policy its tenant stored. A submission without such a text is never completed. */
  lemma CompletedRedaction(c: P.Config, states: seq<P.State>, acts: seq<P.Action>, i: nat, j: P.JobId,
                           ds: seq<W.Detector>, k: Codec)
    requires RedactJob(c, states, acts, i, j) && Redacts(c, ds, k) && Completed(states[i].x, j)
    ensures var x := states[i].x; var job := x.h.accepted[j];
            var text, docs := TextOf(k, job.plain), P.PoliciesOf(x.p, job.tenant);
            && text.Some? && k.parse(job.plain) != Object(None)
            && (k.parse(job.plain).Object? ==> k.parse(job.plain).input == text)
            && (k.parse(job.plain).NotObject? ==> text == Some(job.plain))
            && (docs == [] ==> x.p.rows[j].body == k.enc(R.Redacted(ds, text.value)))
            && (x.p.rows[j].body == k.enc(R.Redacted(ds, text.value))
                || exists d :: d in docs && x.p.rows[j].body == k.enc(PolicyResult(ds, k, text.value, d)))
  {
    T.ResumePreservesMeaning(c, states, acts, i, j);
  }

  /** Without a policy the row holds the redaction of the submitted text itself exactly when
      that equals the redaction of the text the worker read; it does for every submission that
      is not a JSON object. */
  lemma RedactsSubmission(c: P.Config, states: seq<P.State>, acts: seq<P.Action>, i: nat, j: P.JobId,
                          ds: seq<W.Detector>, k: Codec)
    requires RedactJob(c, states, acts, i, j) && Redacts(c, ds, k) && Completed(states[i].x, j)
    requires P.PoliciesOf(states[i].x.p, states[i].x.h.accepted[j].tenant) == []
    ensures var body, plain := states[i].x.p.rows[j].body, states[i].x.h.accepted[j].plain;
            && TextOf(k, plain).Some?
            && (body == k.enc(R.Redacted(ds, plain))
                <==> R.Redacted(ds, TextOf(k, plain).value) == R.Redacted(ds, plain))
            && (k.parse(plain).NotObject? ==> body == k.enc(R.Redacted(ds, plain)))
  {
    CompletedRedaction(c, states, acts, i, j, ds, k);
    var plain := states[i].x.h.accepted[j].plain;
    assert k.dec(k.enc(R.Redacted(ds, plain))) == R.Redacted(ds, plain);
    assert k.dec(k.enc(R.Redacted(ds, TextOf(k, plain).value))) == R.Redacted(ds, TextOf(k, plain).value);
  }

  // ----- a submission that is itself a JSON object

  const ADDRESS := "a@b.co"
  const SUBMITTED := "{\"input\":\"a@b.co\"}"

  /** A detector that finds the address, alone and in the submission. */
  function FindAddress(s: string): seq<S.Span> {
    if s == ADDRESS then [S.Span("email", 0, 6)]
    else if s == SUBMITTED then [S.Span("email", 10, 16)]
    else []
  }

  function AddressDetector(): seq<W.Detector> { [W.Detector("email", FindAddress)] }

  lemma AddressSound()
    ensures R.Sound(AddressDetector()) && |ADDRESS| == 6 && |SUBMITTED| == 18
  {}

  lemma AddressCandidates(text: string)
    ensures W.Candidates(AddressDetector(), text, R.STEP_KINDS[0]) == FindAddress(text)
    ensures W.Candidates(AddressDetector(), text, R.STEP_KINDS[1]) == []
  {
    assert AddressDetector()[..0] == [];
  }

  /** The row of the submission holds the token alone, while the redaction of the submitted text
      would hold an object around it. */
  lemma ObjectSubmission(c: P.Config, states: seq<P.State>, acts: seq<P.Action>, i: nat, j: P.JobId, k: Codec)
    requires RedactJob(c, states, acts, i, j) && R.Sound(AddressDetector()) && Redacts(c, AddressDetector(), k)
    requires Completed(states[i].x, j) && P.PoliciesOf(states[i].x.p, states[i].x.h.accepted[j].tenant) == []
    requires states[i].x.h.accepted[j].plain == SUBMITTED && k.parse(SUBMITTED) == Object(Some(ADDRESS))
    ensures states[i].x.p.rows[j].body == k.enc(R.Redacted(AddressDetector(), ADDRESS))
    ensures states[i].x.p.rows[j].body != k.enc(R.Redacted(AddressDetector(), SUBMITTED))
    ensures R.Redacted(AddressDetector(), ADDRESS).text == "[EMAIL_REDACTED]"
    ensures R.Redacted(AddressDetector(), SUBMITTED).text == "{\"input\":\"[EMAIL_REDACTED]\"}"
  {
    AddressTexts();
    CompletedRedaction(c, states, acts, i, j, AddressDetector(), k);
    RedactsSubmission(c, states, acts, i, j, AddressDetector(), k);
  }

  lemma AroundAddress()
    ensures |ADDRESS| == 6 && ADDRESS[..0] + "[EMAIL_REDACTED]" + ADDRESS[6..] == "[EMAIL_REDACTED]"
  {}

  lemma AroundSubmission()
    ensures |SUBMITTED| == 18
    ensures SUBMITTED[..10] + "[EMAIL_REDACTED]" + SUBMITTED[16..] == "{\"input\":\"[EMAIL_REDACTED]\"}"
  {
    assert SUBMITTED[..10] == "{\"input\":\"" && SUBMITTED[16..] == "\"}";
  }

  lemma AddressTexts()
    ensures R.Sound(AddressDetector())
    ensures R.Redacted(AddressDetector(), ADDRESS).text == "[EMAIL_REDACTED]"
    ensures R.Redacted(AddressDetector(), SUBMITTED).text == "{\"input\":\"[EMAIL_REDACTED]\"}"
  {
    AddressSound();
    forall t ensures W.Candidates(AddressDetector(), t, R.STEP_KINDS[1]) == [] { AddressCandidates(t); }
    AddressCandidates(ADDRESS);
    AddressCandidates(SUBMITTED);
    R.OneFirstWindow(AddressDetector(), ADDRESS, S.Span("email", 0, 6));
    R.OneFirstWindow(AddressDetector(), SUBMITTED, S.Span("email", 10, 16));
    AroundAddress();
    AroundSubmission();
  }
}
