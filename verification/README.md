# Coldharbour, verified

Coldharbour accepts text to redact, runs the redaction in crash-prone workers, purges every trace
of the input under a signed receipt, and keeps an audit ledger of what it did. This project models
its five hardest parts in Dafny and proves what they promise, for every input, every run or every
reachable state.

- **The job protocol** (`Protocol*.dfy`). Workers claim or steal stream entries, checkpoint, record,
  purge, acknowledge. It is a step relation: one Redis command, script or transaction and one SQL
  statement or transaction is one step, any worker may crash between any two, and several workers may
  hold the same entry. `ProtocolInvariant` states the invariant, `ProtocolStores` what each store
  change keeps, `ProtocolSteps` what each effect of a worker keeps, `ProtocolExclusive` what holds
  when an entry has at most one holder, `ProtocolTheorems` the results over whole runs. `Settle`
  models the Lua script on raw fields, `Journal` the two journals, `Seal` the key and receipt stores;
  `SettleRefines`, `JournalRefines` and `SealRefines` carry the raw queue, the journal tables, the key
  table and the receipt and ledger tables beside every run and prove that they hold what the protocol's
  state says; `RedactJobs` proves that the redaction runner does what the protocol's run step does.
  `JobOutcomes` says why a job fails, `HandleAlone` what handling one entry leaves from start to end,
  `DeadLetters` exactly which failed jobs get a dead letter, and `Leftovers` that no checkpoint is left.
- **The ledger** (`Ledger`, `Timestamps`, `Merkle`, `Hashing`). The hash is an arbitrary function with
  32-byte values. Nothing is assumed about collisions: every binding result either holds or names two
  messages, among those the compared computations really hash, on which the hash collides.
- **Check digits** (`CheckDigits`). Verhoeff over the dihedral group of order ten, and Luhn.
- **Spans and rewriting** (`Spans`, `Rewrite`, `Redact`). Detectors are arbitrary functions that return
  spans inside the text.
- **The log masker** (`Breaker`, `Events`). The circuit breaker and the event window as interleavings
  of a reader, a loop or flusher, and timers.

Two regimes are covered by the protocol: any number of workers on one entry without the `Fail` hook,
which is how the worker binary is built, and exclusive claims, with or without the hook
(`ProtocolTheorems.Supported`). A run starts from empty stores; jobs enter through `Add` with a tenant
and an id not used before.

`dafny verify dfyconfig.toml` checks everything.

## Model

| member | source | states |
|---|---|---|
| `ProtocolTheorems.StepKeeps` | internal/queue/group.go:310-415 | Every action of every worker, crashes and steals included, keeps the whole invariant, and no row, receipt, destroyed key or ledger record is ever changed or taken back |
| `ProtocolTheorems.RunGrows` | internal/queue/group.go:89-97 | Along every run the durable facts only grow: between any two states rows, receipts, ledger prefixes and destroyed keys persist unchanged |
| `ProtocolTheorems.PurgeSafety` | internal/queue/purge.go:24-74 | In every reachable state a receipt implies a journal row, a destroyed key implies a receipt with exactly the destruction time, and a job with no entry left has row, receipt and destroyed key |
| `ProtocolTheorems.PurgedForever` | internal/queue/purge.go:24-74 | Once a job's entries are gone its row, receipt and destroyed key stay as they are for ever and no checkpoint can be opened, not even one a stale worker writes later |
| `ProtocolTheorems.NoJobLost` | internal/queue/stream.go:125-142 | In every reachable state an accepted job has a journal row, or an entry holds the very ciphertext `Add` sealed and the live key opens it to the accepted input |
| `ProtocolTheorems.OnlyCiphertextQueued` | internal/queue/dlq.go:147-166 | The stream only carries the fields of accepted jobs with the input sealed under the job's key, after requeues too; dead letters carry no input and name jobs with a FAILED row |
| `ProtocolTheorems.OneLedgerRecord` | internal/seal/receipts.go:91-130 | In every reachable state a job's own chain holds exactly one purge record if it has a receipt and none otherwise, and no other tenant's chain holds any |
| `ProtocolTheorems.ResumePreservesMeaning` | internal/queue/group.go:343-388 | Every checkpoint that opens is the first step of the submitted input; a COMPLETED row holds a valid output, which without a policy is what one uninterrupted run computes |
| `JobOutcomes.FailedForCause` | internal/queue/group.go:310-415 | In every reachable state a FAILED row has one of four causes: the type has no runner, the runner does not accept the input, a policy could not be loaded while the job ran, or the hook ordered the failure |
| `JobOutcomes.AcceptedJobCompletes` | internal/queue/group.go:396-414 | Without hooks a job of a known type with an accepted input and no failed policy load is recorded as COMPLETED if at all, with a valid output, and never has a dead letter |
| `HandleAlone.HandlesAccepted` | internal/queue/group.go:310-415 | Left alone, a worker that takes up an accepted job ends idle and leaves exactly: a COMPLETED row with the output under the newest policy or of both steps, a receipt and its ledger record, a destroyed key, no checkpoint, no entry; dead letters and counter as before |
| `HandleAlone.HandlesRejected` | internal/queue/dlq.go:118-145 | An unknown type, an input that is not accepted or a failed policy load leaves a FAILED row with the reason, the whole purge, no entry, no counter and one more dead letter |
| `HandleAlone.HandlesJournaled` | internal/queue/group.go:293-308 | A job with a row is purged again if need be and acknowledged; row, dead letters and counter stay |
| `HandleAlone.HandlesRetry` | internal/queue/dlq.go:68-101 | A job ordered to fail with fewer than two attempts behind it is requeued with its claimed fields and counted, and nothing is recorded |
| `HandleAlone.HandlesLastFailure` | internal/queue/dlq.go:68-101 | Ordered to fail for the third time it leaves a FAILED row with the output, the whole purge and a dead letter |
| `HandleAlone.ReachesCompletion` | internal/queue/group.go:310-415 | From every reachable state in which a worker takes up an accepted job without a row, the worker, left alone, gets to that end |
| `Leftovers.NoCheckpointLeft` | internal/queue/purge.go:69-74 | Under exclusive claims an acknowledged job has no checkpoint hash left, readable or not |
| `ProtocolTheorems.NeverMissing` | internal/queue/purge.go:53-62 | The receipt is never missing after a conflicting insert, and the input of an accepted job with a known type never fails to open for lack of a key row or of its seal |
| `ProtocolTheorems.RetryBounds` | internal/queue/dlq.go:26-41 | Under exclusive claims the stored counter is absent, 1 or 2, a job is requeued at most twice, and at most one entry per job is in the stream |
| `ProtocolTheorems.PeekAgreesWithSettle` | internal/queue/dlq.go:68-101 | Under exclusive claims the settle script finds the count that the earlier look saw: it buries exactly at two, with a FAILED row, receipt and destroyed key already committed, and otherwise requeues the claimed fields while no row exists |
| `DeadLetters.UninterruptedBurial` | internal/queue/dlq.go:118-145 | In both regimes, unless a crash hit a worker between the FAILED row of a job and its burial, a FAILED row comes with the job's dead letter or with a worker still about to write it |
| `DeadLetters.DeadLetterIff` | internal/queue/group.go:293-308 | Under exclusive claims an acknowledged FAILED job has a dead letter if and only if no such crash happened |
| `DeadLetters.LostDeadLetter` | internal/queue/group.go:293-308 | A run that ends with an acknowledged FAILED job and no dead letter: the runner rejects the input, the worker crashes after the row, the reclaimed entry is purged and acknowledged |
| `DeadLetters.RunLeavesNone` | internal/queue/dlq.go:51-57 | Under exclusive claims a job with a dead letter has no stream entry left |
| `ProtocolSteps.EffectKeeps` | internal/queue/group.go:310-415 | Each effect of a worker, whatever the others did since its last one, keeps the shared invariant and the facts its next program counter relies on |
| `ProtocolInvariant.WorkerStable` | internal/queue/group.go:183-227 | What one worker relies on survives every change another worker can make |
| `ProtocolExclusive.WorkExclusive` | internal/queue/group.go:183-227 | Every effect keeps at most one holder per entry and at most one entry per job |
| `RedactJobs.RunnerIsRun` | internal/redact/runner.go:21-56 | The protocol's run step buries where `Redact.Run` fails, continues with its encoded result where it finishes, and where it writes a checkpoint saves exactly that one and finishes from it with the same result |
| `RedactJobs.CompletedRedaction` | internal/queue/group.go:282-291 | After any crashes, steals and resumes the COMPLETED row of a redaction job holds the redaction of the text the worker reads from the submission, a JSON object standing for its string member `input`: `RedactPII` of it without a policy, else possibly that under a stored policy; a submission without such a text is never COMPLETED |
| `RedactJobs.RedactsSubmission` | internal/queue/group.go:282-291 | Without a policy the row holds the redaction of the submitted text itself if and only if that equals the redaction of the text the worker reads, so always when the submission is not a JSON object |
| `RedactJobs.ObjectSubmission` | internal/queue/group.go:282-291 | The submission `{"input":"a@b.co"}` gives a row with the token alone and not with the object around it |
| `Settle.OnlyInputDropped` | internal/queue/dlq.go:42-50 | Filtering the flat argument list drops the `input` field and no other, for every list |
| `Settle.EmptyOnlyWithoutFields` | internal/queue/dlq.go:51-53 | A burial writes no dead letter exactly when there is no field other than `input` |
| `Settle.FilterFields` | internal/queue/dlq.go:42-50 | The script's while loop computes that filter |
| `Settle.ArgsOf` | internal/queue/dlq.go:152-156 | The argument list denotes exactly the claimed fields, in whatever order the map is iterated |
| `Settle.Server.Script` | internal/queue/dlq.go:19-58 | The whole new Redis state and reply of the script, forced or not, as a function of the old state |
| `Settle.Server.Settle` | internal/queue/dlq.go:147-166 | Settling runs the script on a list that denotes exactly the claimed fields |
| `SettleRefines.SettleRefinesProtocol` | internal/queue/dlq.go:19-58 | On related states the script is the protocol's burial when forced and its retry-or-bury step otherwise, whatever the order of the fields |
| `SettleRefines.SettleRefinesRun` | internal/queue/dlq.go:147-166 | In every reachable state the script run by a worker about to settle is that worker's step, with nothing assumed of the entry |
| `SettleRefines.QueueReads` | internal/queue/group.go:107-131 | Along every run with the raw keys beside it, from nothing on, stream, pending set, dead letters and counters read as the protocol's |
| `SettleRefines.NoPlaintextQueued` | internal/queue/dlq.go:152-156 | In the raw fields along every such run an entry's input is the text of its job's sealed input and a dead letter has no input field |
| `Journal.FirstPickupIs` | internal/journal/journal.go:122-133 | The recorded start is the time of the first CREATED to RUNNING transition, and there is none exactly when no transition is one |
| `Journal.ParseTerminal` | internal/journal/journal.go:113-146 | The search loop yields the row or the error of the specification, in the source's order of checks |
| `Journal.MemoryJournal.Record` | internal/journal/journal.go:155-176 | New state and answer of the in-memory journal |
| `Journal.PgJournal.Record` | internal/journal/journal.go:198-255 | With the database giving up at any statement: a database error leaves both tables as they were, every other answer comes with exactly the specified tables |
| `Journal.JournalsAgree` | internal/journal/journal.go:148-273 | Over every sequence of calls, aborted ones included, both journals answer alike, up to microsecond timestamps, if and only if every recorded result has a tenant |
| `Journal.TablesStayCoherent` | internal/journal/journal.go:198-255 | After every sequence of signed calls `outputs` and `jobs` rows exist together, states and tenants agree, the checksum is the hash of the stored body, the stored signature verifies for job, tenant and stored body, and no row has changed |
| `Journal.LoadReadsBack` | internal/journal/journal.go:198-273 | Once a result was recorded, every later load of its job, after any calls, finds a row with the result's state and the hash of its body |
| `Journal.LoadReadsTimes` | internal/journal/journal.go:113-146 | The row of a new job reads back with its type, the time of its first pickup and the time of its last transition, to the microsecond |
| `Journal.TerminalMeans` | internal/journal/journal.go:113-133 | A result is refused as not terminal exactly without a last COMPLETED or FAILED transition, and for a missing pickup exactly when it has one but no transition is a pickup |
| `Journal.LoadFindsRecorded` | internal/journal/journal.go:257-273 | A load after any calls finds a row if and only if one was there before or some call recorded a result under that derived id |
| `Journal.SignOutput` | internal/queue/purge.go:76-86 | Changes the two signature fields only, to a signature that verifies for the job, its tenant and the durable body |
| `JournalRefines.RecordRefinesProtocol` | internal/journal/journal.go:198-255 | The transaction commits exactly when the protocol's write-once step goes on, and its tables then hold exactly the protocol's rows |
| `JournalRefines.RecordRefinesRun` | internal/queue/group.go:89-97 | In every reachable state the transaction run by a worker about to commit is that worker's step |
| `JournalRefines.TablesRead` | internal/journal/journal.go:198-255 | Along every run with the journal tables beside it, from empty tables on, they hold exactly the protocol's rows, in pairs and with the checksum of the stored body |
| `Seal.MemoryKeyStore.Ensure` | internal/seal/keys.go:45-60 | The in-memory store follows the key lifecycle |
| `Seal.MemoryKeyStore.Load` | internal/seal/keys.go:62-73 | Reads the key without creating one |
| `Seal.MemoryKeyStore.Destroy` | internal/seal/keys.go:82-97 | Destroys a live key once and leaves everything else |
| `Seal.PgKeyStore.Ensure` | internal/seal/keys.go:123-157 | Two statements without a transaction follow the same lifecycle; if the second fails the row stays |
| `Seal.PgKeyStore.Load` | internal/seal/keys.go:159-180 | Reads the key without creating one |
| `Seal.PgKeyStore.Destroy` | internal/seal/keys.go:182-189 | Destroys a live key once and leaves everything else |
| `Seal.Lifecycle` | internal/seal/keys.go:45-97 | Over every sequence of calls a destroyed key keeps its destruction time and is never answered again, and every answer for a job is the one material it was created with |
| `Seal.PgReceiptStore.Insert` | internal/seal/receipts.go:91-130 | Receipt and ledger row are written together or not at all, only for a new job, and only in that tenant's chain; without a database fault only an unreadable tenant id fails |
| `SealRefines.KeyCallsRefine` | internal/seal/keys.go:123-189 | On related key tables every key-store call is the protocol's key step, and asking for a key answers with the row that step leaves |
| `SealRefines.KeyEffectsRefine` | internal/queue/memhash.go:36-38 | Every effect of a worker on the key table is the key-store call it makes, and no other effect touches it |
| `SealRefines.KeyReadsRefine` | internal/queue/group.go:267-280 | Every step that reads the key table branches on the store's answer: destroyed and missing keys as in the source, and with a key it opens the checkpoint, seals the partial result or opens the input under exactly that key |
| `SealRefines.InsertRefines` | internal/queue/purge.go:42-62 | On related tables an insert that does not fail stores exactly where the protocol's step adds receipt and record, and finds one present exactly where the step does |
| `SealRefines.LookupRefines` | internal/seal/receipts.go:132-145 | A lookup finds a receipt exactly where the protocol's step goes on to destroy the key, at that receipt's time, and otherwise the step inserts, or fails after a conflict |
| `SealRefines.OtherAppendRefines` | internal/ledger/ledger.go:44-76 | An append of any other kind is the protocol's append of another record |
| `SealRefines.TablesRead` | internal/seal/receipts.go:91-130 | Along every run with the tables beside it, from empty tables on, receipt rows and ledger rows hold exactly what the protocol's state says |
| `SealRefines.CountsAgree` | internal/seal/receipts.go:109-125 | The purge rows of a chain that name a job are as many as the protocol's records of it |
| `SealRefines.OneLedgerRow` | internal/seal/receipts.go:91-130 | Along every such run exactly one `purge_receipt` row of the ledger table names a job with a receipt row, in its own tenant's chain, and none names a job without one or stands in another chain |
| `SealRefines.KeyTableReads` | internal/seal/keys.go:123-189 | Along every run with the key table beside it, from an empty table on, it holds what the protocol's state says |
| `SealRefines.PurgedRows` | internal/queue/purge.go:24-74 | Along every run with the tables beside it an acknowledged job has a receipt row, and its key row is destroyed at that receipt's time |
| `Ledger.Tables.AppendSQL` | internal/ledger/ledger.go:78-110 | The statements extend the tenant's own table as specified and leave every other tenant's unchanged |
| `Ledger.AppendKeeps` | internal/ledger/ledger.go:44-76 | Appending to a chain that verifies gives a chain that verifies and extends it |
| `Ledger.AppendedRow` | internal/ledger/ledger.go:44-76 | The row an append adds carries the kind, the canonical payload and the time, exact down to the second and truncated by less than a microsecond |
| `Ledger.Verify` | internal/ledger/verify.go:13-66 | The walk succeeds if and only if sequence numbers run 1..n, every row links to its predecessor and to its own content, and the head row is the last row |
| `Ledger.AppendAndVerifyAgree` | internal/ledger/ledger.go:44-110 | After any interleaving of committed and rolled-back appends every tenant's chain verifies, and a step changes only the chains its committing transaction appended to, by extending them |
| `Ledger.Unambiguous` | internal/ledger/ledger.go:14-22 | The concatenation without separators determines previous hash, kind, payload and time |
| `Ledger.ChainBinding` | internal/ledger/verify.go:13-66 | Two chains that verify under one head agree in kind, canonical payload and normalised time at every position, or the hash collides on their own messages at the position returned |
| `Timestamps.FormatInjective` | internal/ledger/ledger.go:19 | Valid times with one RFC 3339 text are equal |
| `Timestamps.NormalizeTruncates` | internal/ledger/ledger.go:40-42 | Normalising keeps every field down to the second and drops less than a microsecond |
| `Timestamps.FormatReads` | internal/ledger/ledger.go:19 | The hashed text is the date-time form of section 5.6 of RFC 3339: separators and Z in their places, each field reads back as its number, and a fraction without trailing zeros exactly when there are nanoseconds |
| `Timestamps.FormatHasNoCloseBrace` | internal/ledger/ledger.go:19 | The text of no time contains a closing brace |
| `Merkle.NextLevel` | internal/ledger/merkle.go:19-32 | The inner loop computes the next level, hashing an unpaired last node with itself, and hashes exactly the messages of that level |
| `Merkle.MerkleRoot` | internal/ledger/merkle.go:9-36 | The loops compute the root of the recursive tree over the leaves, and hash exactly the messages of the successive levels |
| `Merkle.TreeOfLevel` | internal/ledger/merkle.go:18-34 | Hashing one level of any list lowers the recursive tree by one |
| `Merkle.HeightIsCeilLog` | internal/ledger/merkle.go:18-34 | The height is the binary logarithm of the number of leaves, rounded up |
| `Merkle.VerifyInclusionProof` | internal/ledger/merkle.go:41-58 | Accepts exactly when the lengths match and the climb ends at the root, and hashes exactly the messages along the climb |
| `Merkle.Completeness` | internal/ledger/merkle.go:41-58 | Every leaf of every non-empty list has a proof, of length exactly the height |
| `Merkle.Binding` | internal/ledger/merkle.go:41-58 | A 32-byte leaf that verifies with a path as long as the tree is high is the leaf at the position its direction bits name, or a collision between the two computations is returned |
| `Merkle.TreeInputsAreHashed` | internal/ledger/merkle.go:9-36 | For every non-empty list the messages of the recursive tree are exactly those the loops hash |
| `Merkle.InclusionBinding` | internal/ledger/merkle.go:41-58 | The same against the root of n leaves: the leaf is one of them, or a collision is returned between a message of the check and one the loops hash |
| `Merkle.RootBinding` | internal/ledger/merkle.go:9-36 | Lists of one length with one root are equal, or a collision is returned between messages the loops hash for the two lists |
| `Merkle.RepeatedLastLeaf` | internal/ledger/merkle.go:26-31 | Repeating the last of an odd number of leaves never changes the root |
| `Merkle.SmallRoots` | internal/ledger/merkle.go:9-58 | Roots of up to three leaves and one-step proofs written out: which side is hashed first |
| `Merkle.LengthsMustAgree` | internal/ledger/merkle.go:9-36 | Equal length is the exact condition on the lengths: for any hash and any two different lengths of non-empty lists there are lists of 32-byte leaves with one root |
| `Merkle.EmptyRoot` | internal/ledger/merkle.go:10-12 | A non-empty list with the root of the empty one is a single leaf of zeros, or one of its messages hashes to zeros |
| `CheckDigits.TableD` | internal/detect/india.go:64-75 | The table is the multiplication of the dihedral group |
| `CheckDigits.Associative` | internal/detect/india.go:64-75 | That multiplication is associative |
| `CheckDigits.TableInv` | internal/detect/india.go:88 | The inverse table holds the only left inverses |
| `CheckDigits.NextRow` | internal/detect/india.go:77-86 | Every permutation row is one fixed permutation applied to the row before, across the wrap too |
| `CheckDigits.RowIsPower` | internal/detect/india.go:77-86 | Row r is the r-th power of the permutation (0 1 5 8 9 4 2 7)(3 6) |
| `CheckDigits.AntiSymmetric` | internal/detect/india.go:90-96 | Swapping two different digits under consecutive rows changes their product, at every position including the wrap |
| `CheckDigits.DigitsOnly` | internal/detect/india.go:54-62 | Keeps exactly the digits, in order |
| `CheckDigits.OnlyDigitsMeans` | internal/detect/india.go:52-62 | The filter keeps exactly the characters 0 to 9 and works piece by piece |
| `CheckDigits.VerhoeffOK` | internal/detect/india.go:90-96 | The loop accepts exactly when the group product of the permuted digits is the identity |
| `CheckDigits.VerhoeffCheck` | internal/detect/india.go:98-104 | The computed digit completes the payload to an accepted string and no other digit does |
| `CheckDigits.VerhoeffSubstitution` | internal/detect/india.go:90-96 | Replacing any one digit of a string of any length changes its product, so a valid string becomes invalid |
| `CheckDigits.VerhoeffTransposition` | internal/detect/india.go:90-96 | Swapping any two different neighbours changes the product, so a valid string becomes invalid |
| `CheckDigits.VerhoeffExample` | internal/detect/india.go:90-96 | The published example 2363 is accepted |
| `CheckDigits.LuhnOK` | internal/detect/creditcard.go:45-63 | Accepts exactly the digit strings whose weighted sum is divisible by ten |
| `CheckDigits.LuhnSumIs` | internal/detect/creditcard.go:48-61 | The sum takes each digit as it stands at even distance from the end, and doubled less 9 if it has two digits at odd distance |
| `CheckDigits.LuhnCheckDigit` | internal/detect/creditcard.go:45-63 | For every payload exactly one last digit is accepted: minus the weighted payload sum modulo ten |
| `CheckDigits.LuhnSubstitution` | internal/detect/creditcard.go:45-63 | Replacing any one digit of a valid number makes it invalid |
| `CheckDigits.LuhnTransposition` | internal/detect/creditcard.go:45-63 | Swapping neighbours of a valid number is accepted if and only if they are equal or are 0 and 9 |
| `Spans.PreferLonger` | internal/detect/detect.go:90-120 | The result is sorted, disjoint, made of non-empty candidates, and every rejected non-empty candidate overlaps a chosen one that comes before it in the order of preference |
| `Spans.SelectionUnique` | internal/detect/detect.go:90-120 | Only one list has that property, so the result depends neither on the order nor on repetitions of the candidates |
| `Spans.SelectionExists` | internal/detect/detect.go:90-120 | Every list of candidates has such a selection |
| `Spans.PairChoice` | internal/detect/detect.go:91-101 | Of two overlapping candidates the longer is chosen, of equally long ones the leftmost, of two at one place the one whose kind comes first |
| `Spans.OverlapMeans` | internal/detect/detect.go:107-116 | Spans overlap exactly when they share a position; touching is not overlapping |
| `Spans.SelectionIdempotent` | internal/detect/detect.go:90-120 | Selecting again from the result changes nothing |
| `Spans.CoverageBound` | internal/detect/detect.go:90-120 | The positions covered by any candidate number at most the sum of 3·length − 2 over the chosen spans, so what is left outside them is less than twice what is replaced |
| `Rewrite.Scan` | internal/detect/detect.go:75-88 | The loop over the detectors returns the unique selection among everything the enabled ones find |
| `Rewrite.ScanFits` | internal/detect/detect.go:75-88 | What it returns is in order, disjoint, non-empty and inside the text |
| `Rewrite.CandidatesExact` | internal/detect/detect.go:75-88 | The candidates are exactly what the detectors of the enabled kinds find |
| `Rewrite.ScanCovers` | internal/detect/detect.go:75-120 | Whatever an enabled detector finds is chosen or overlaps a chosen span at least as long |
| `Rewrite.BracketedIs` | internal/detect/detect.go:139-140 | The default token is the kind in capitals between brackets |
| `Rewrite.Apply` | internal/detect/detect.go:122-146 | For any spans: those kept fit and each one left out has a reason; spans that all fit are all kept; the output is the rewriting at the kept spans and the counts are theirs by kind |
| `Rewrite.OutsidePreserved` | internal/detect/detect.go:130-145 | Every character outside the spans is preserved, moved by exactly what the replacements before it added |
| `Rewrite.TokenPlaced` | internal/detect/detect.go:130-145 | Each span is replaced by exactly its token, at the place so computed |
| `Rewrite.RewrittenLength` | internal/detect/detect.go:130-145 | The length changes by exactly the sum of what the replacements add |
| `Rewrite.PartialExact` | internal/detect/detect.go:154-159 | Partial mode keeps the length and stars position i exactly when some span has start ≤ i < end − 4 |
| `Rewrite.KindsTotal` | internal/detect/detect.go:142 | The counts sum to the number of spans |
| `Rewrite.MaskWith` | cmd/sentinel/mask.go:25-55 | A line goes to the hand-off exactly when it is long and not in shadow mode; otherwise its counts are those of the selection, the same in shadow mode, which leaves the line alone, as in masking |
| `Rewrite.MaskKindsExact` | cmd/sentinel/mask.go:5-12 | The six kinds masked when none are given, and no others |
| `Rewrite.CountsUnique` | cmd/sentinel/mask.go:45-54 | Counts that describe one selection are equal, so shadow counts equal masking counts |
| `Redact.ApplySpans` | internal/redact/redact.go:45-63 | On exactly the spans for which no slice is out of range, empty ones included: gaps and tokens in order, the length grown by exactly what the replacements add, each of the three counters by the spans of its kind; on spans that fit, the guarded rewriting with another token table |
| `Redact.TablesDiffer` | internal/redact/redact.go:65-76 | The two token tables differ exactly on email, phone_us and ssn |
| `Redact.RewritersAgree` | internal/redact/redact.go:45-63 | Without those kinds both rewriters give the same text |
| `Redact.OutsideAgrees` | internal/redact/redact.go:45-63 | Whatever the kinds, every character outside the spans stands in both results, each time moved by that rewriter's own replacements |
| `Redact.ApplyClassWindow` | internal/redact/redact.go:78-83 | One window rewrites everything of its kinds and adds up the counts |
| `Redact.WindowCounts` | internal/redact/redact.go:78-83 | The counters grow by exactly the number of spans replaced |
| `Redact.RedactPII` | internal/redact/redact.go:85-93 | The loop composes the two windows |
| `Redact.WindowsExact` | internal/redact/redact.go:26-43 | email and phone_us are in the first window, ssn in the second, and no other kind in any |
| `Redact.RedactedRemoves` | internal/redact/redact.go:85-93 | Every address and telephone number found in the input, and every social security number found in what the first window leaves, is replaced or overlaps a replaced span at least as long |
| `Redact.OneFirstWindow` | internal/redact/redact.go:65-93 | A single address or telephone number is replaced by its own literal token, counted in its own counter, and nothing else changes |
| `Redact.OneSecondWindow` | internal/redact/redact.go:65-93 | The same for a single social security number |
| `Redact.ApplyPolicy` | internal/redact/runner.go:58-74 | Partial masking or redaction of the policy's own detectors, with their counts and the policy's version |
| `Redact.UnderPolicyMeans` | internal/redact/runner.go:58-74 | A partial policy stars its findings in place and keeps the length, any other redacts them; the three counts are those of the findings and the version is the policy's |
| `Redact.Run` | internal/redact/runner.go:21-56 | Without a policy, a fresh run and a run resumed from window 0 of the input both give `RedactPII` of the input; what it checkpoints is window 0; each error case and the policy case as in the source |
| `StreamIds.RoundTrip` | internal/queue/stream.go:36-54 | Parsing the text of any 64-bit id gives that id |
| `StreamIds.ParseExact` | internal/queue/stream.go:36-50 | The parser accepts exactly two 64-bit numerals around one hyphen |
| `StreamIds.FormatExample` | internal/queue/stream.go:52-54 | One id written out |
| `Breaker.RunInv` | cmd/sentinel/handoff.go:69-154 | Every interleaving of reader, loop and timers keeps the invariant |
| `Breaker.ProbeToken` | cmd/sentinel/handoff.go:69-154 | While open there is exactly one permission to probe among the flag, the timers, the reader, the queue and the loop; while closed there is none and between items the failure count is zero |
| `Breaker.OneReplyEach` | cmd/sentinel/handoff.go:113-154 | Items are answered once each and in order; a probe costs one post, any other item at most five posts and 150 ms of backoff, a failed one exactly that |
| `Breaker.ReplyTellsPosts` | cmd/sentinel/handoff.go:113-154 | A reply is positive exactly when the last post of its item succeeded, every earlier post of it failed, and the reply tells their number |
| `Breaker.BreakerMoves` | cmd/sentinel/handoff.go:118-146 | The breaker opens only on an item whose five posts all failed and closes only after a post that succeeded |
| `Breaker.HeldExactly` | cmd/sentinel/handoff.go:76-90 | The lines reported as held are exactly the items with a positive reply, once each and in order; all others go to the fail policy |
| `Breaker.ProbesWhenOpen` | cmd/sentinel/handoff.go:113-129 | The loop finds the breaker open exactly when the item it took up is a probe |
| `Breaker.QueueNeverFull` | cmd/sentinel/handoff.go:77-90 | With one reader the queue holds at most one item and the full-queue branch is never taken |
| `Events.WindowCounters.Add` | cmd/sentinel/events.go:28-40 | Adds every count, and one to held and dropped as flagged |
| `Events.WindowCounters.Take` | cmd/sentinel/events.go:53-77 | The batch holds everything positive in the window, which starts afresh at the given time |
| `Events.WindowCounters.Restore` | cmd/sentinel/events.go:79-90 | Adds the batch back and moves the start back to the batch's |
| `Events.Conservation` | cmd/sentinel/events.go:156-185 | Over every interleaving, everything recorded per kind, held, dropped and fail-open equals what was delivered, plus what was in batches lost before posting, plus what is in the window, the counter or in flight |
| `Events.NothingLost` | cmd/sentinel/events.go:156-185 | Without a flush aborted before its post nothing is lost |
| `Events.WindowsTile` | cmd/sentinel/events.go:156-185 | The windows that left tile the time since the start, each beginning where the one before ended |
| `Events.BatchesEndAtTheirTake` | cmd/sentinel/events.go:156-162 | Every batch that left or is in flight was taken at some moment, begins with the window of that moment and ends with its clock |

## Left out

- Events.Conservation: a flush that fails to encode its batch or to build its request drops it (cmd/sentinel/events.go:163-170); the theorem counts such batches as lost rather than excluding them.
- Events.WindowsTile: needs a clock that does not run backwards; a window lost before posting still occupies its stretch of time.
- CheckDigits.VerhoeffOK: for strings of digits only, as its callers pass; on other bytes the source panics.
- Ledger.ChainBinding: for kinds without `{`, payloads that are JSON objects and years of four digits, which every append in the repository satisfies; none of it follows from the types.
- Ledger.AppendAndVerifyAgree: assumes that canonicalisation recovers the canonical bytes after JSONB storage.
- Journal.JournalsAgree: derived ids must be distinct for the job ids in play; the timestamp columns' microsecond rounding is a parameter.
- Journal.TablesStayCoherent: a failed commit counts as not applied.
- ProtocolTheorems.RetryBounds: exclusive claims only, because the look at the counter and the settle script are separate steps.
- ProtocolTheorems.ResumePreservesMeaning: outputs travel as opaque text; what a run under a stored policy computes is one of the tenant's policies applied to the input.
- Every FAILED job having a dead letter is false of the source; `DeadLetters.DeadLetterIff` and `DeadLetters.LostDeadLetter` give the exact condition and a run.
- DeadLetters.UninterruptedBurial: one direction only when several workers hold an entry, because a second worker may still bury what a crash interrupted.
- The protocol identifies a job id with its derived durable id and a tenant's text with its UUID; the refinements assume both maps distinct on the ids and tenants in play, and that a stored ledger payload names its job.
- SealRefines.TablesRead: a transaction that fails, a database error or an unreadable tenant id, is a crash and leaves the tables as they were; a failed commit counts as not applied.
- RedactJobs.CompletedRedaction: the JSON parser, and the encoding of results with its inverse, are parameters.
- The event publications between effects, which change no durable state; a failing one is a crash.
- The `step1` counter of the checkpoint hash, and checkpoints of steps other than the first, which no runner with two steps reads.
- A tenant id that does not parse as a UUID fails the receipt transaction; in the protocol that is a crash, in `Seal.PgReceiptStore.Insert` an error.
- Entries without a tenant or an input, and the API's removal of a key after a failed enqueue: they bypass the journal by design.
- `MemoryReceiptStore`, the receipt store for tests, which writes no ledger.
- AES-GCM, Ed25519, SHA-256, UUID derivation and Vault: symbolic sealing, opaque hash and signature functions.
- Regular expressions and the accuracy of detectors; JSON encoding of results and checkpoints.
- The width of integer counters, idle thresholds, wall-clock timing and the liveness of reclaiming.
- HTTP handlers, sessions, the dashboard, command-line flags, metrics, TLS, delivery links, policy versions, API keys, mask jobs and the load gate: plumbing or easy members.
