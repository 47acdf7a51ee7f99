# doc-insight: verified models of the hard parts

doc-insight is a tenant-scoped document pipeline: uploads are registered with an event, a relay
publishes the event to a stream, workers extract, chunk and index the document, and a query
service answers questions from the chunks, with a hosted model when budget, slots and circuit
breaker allow it. This project models the components whose correctness is not visible in one
function body, and proves what they promise. Check it with `dafny verify dfyconfig.toml`.

| files | component |
|---|---|
| Text, PageTokens, Windows, Units, Chunker, Traces, WordTokenizer | the chunker that encodes a page once, and the retokenizing reference it must equal |
| Analysis | languages, entities and chunks of a whole document |
| Streams, Protocol, RetryBudget, AckSafety, Leases, NoLoss, LeaseNeeded, Services, Relays, Routing | durable delivery: consumer group, outbox relay, worker, dead letters |
| Ledger, Breaker, Hosted | token ledger, circuit breaker, and the hosted call that composes them with the slots |
| RateLimit, KeyExpiry, KeyCache | the gateway's token bucket, kept and expiring, and its signing-key cache |
| Fusion | reciprocal rank fusion |
| Repository, Writes, Listings, Tenants | the tenant-keyed document repository, what its writes store and its reads return, and the isolation of tenants |
| Common, Sums, Order | shared types, sums over sequences, orders and the stable sort |

How to read the model:

- Loops and mutable objects are methods and classes, proved equal to specification functions;
  the theorems are lemmas about those functions, over every input or every run.
- The tokenizer, the whitespace test and the character categories are arbitrary functions. What
  a theorem needs of them is a hypothesis in its `requires`; `WordTokenizer` shows that the
  tokenizer of the repository's own tests meets those of the equivalence on every text.
- Delivery is a transition system: each step is one durable effect of one participant, all
  interleavings are runs, relays and workers stop anywhere, and malformed or forged events may be
  injected. `Services` and `Relays` write the worker's and the relay's methods as sequences of these
  steps and state what one undisturbed call does; `Services.Expected` is the handler's decision tree
  restated as a function. Heartbeats, blocking times, signals and the polling loops are outside.
- `Document.writer`, `System.runs`, `System.stored`, `Row.charge`, the counters of `Hosted.Call`
  and the fields of the `World` types are history: they record what happened and decide nothing.
- Clock readings, fresh identifiers, fetch results and provider replies are parameters or steps.

Results worth knowing before changing the code:

- The lease of `docs/worker.md:62-66` is necessary. `LeaseNeeded` is a complete run in which an
  overtaken worker strands a document; with the lease `NoLoss.NoDocumentIsStranded` holds. The
  retry budget and the acknowledgement rule hold without it.
- A pending scan that has claimed its count stops there, also when no idle entry is left: it then
  returns the id of the next pending entry and not zero (`Streams.ClaimedAllButNotBack`), so the
  worker scans once more before its cooldown. `Streams.OneCallSuffices` is the exact condition.
- A settlement with the outcome `reserved` would leave its row open and let it be charged again;
  `Ledger.BalancedExactlyUnlessReopened` is the exact condition, and `Hosted.OutcomesSettle` shows
  that no caller passes it.
- An index error during a hosted call would leave the breaker ticket unfinished, because
  `openai_provider.py:164` does not catch what `generation.py:45` catches. On a recovery probe that
  is final (`Hosted.IndexErrorOnProbeBlocks`). Nothing visible in `_call` raises an index error, so
  this is a gap between the two lists of exceptions, not a failure that was found.
- The bound of the token bucket fails on the shared store when the clock goes back: a denied request
  brings the expiry forward, and the key is gone before the bucket has refilled
  (`KeyExpiry.SetbackAllowsTooMany`). `KeyExpiry.ExpiryIsSafeExactlyWhen` is the exact condition: the
  lag must be absorbed by rounding the time to live up, which is less than a millisecond.
- The Retry-After delay can be too short when the clock has gone back behind the stored bucket
  (`KeyExpiry.RetryCanBeTooShort`);
  `KeyExpiry.RetryIsLeastExactlyWhen` is the exact condition, as a test on the stored bucket, the
  reading and the time to live.
- The text search of the in-memory repository bounds its candidates by the size of the whole store.
  It is the one place where other tenants' data enters a read, and it never changes an answer.
- Agreement of both rankings wins in fusion if and only if `rrf_k + 2` exceeds the depth.
- `docs/worker.md:36-37` speaks of idle time that exceeds the minimum; the code claims at the
  minimum already (`streams.py:75`), and the model follows the code.

## Model

| member | source | states |
|---|---|---|
| Text.WordsFromPartition | apps/worker/src/doc_insight/worker/structure.py:51 | the matches of `\S+` are exactly the maximal runs without whitespace: each a whole word, in order, none left out |
| PageTokens.BisectCountsContained | apps/worker/src/doc_insight/worker/structure.py:33-45 | for ordered offsets the two binary searches yield the number of offsets inside the slice, exactly when no token sticks out on both sides of it |
| PageTokens.CountersAgree | apps/worker/src/doc_insight/worker/structure.py:39-45 | under locality the page count equals re-encoding, on every slice cut inside a word and on every nonempty whitespace-bounded one |
| Windows.GrowEndIsMaximal | apps/worker/src/doc_insight/worker/structure.py:82-92 | a window is the longest run of units within the cap |
| Windows.OverlapStartIsMinimal | apps/worker/src/doc_insight/worker/structure.py:95-108 | the repeated tail is the longest within the budget that still starts past the window before |
| Windows.SameChunks | apps/worker/src/doc_insight/worker/structure.py:121-144 | windowing depends on the counter only through slices from the start of a unit to the end of it or a later one |
| Windows.ChunksCoverUnits | apps/worker/src/doc_insight/worker/structure.py:121-144 | every unit lies in an emitted chunk although windows that end no later than the last chunk are skipped |
| Windows.ChunksOverlapWithin | apps/worker/src/doc_insight/worker/structure.py:95-144 | consecutive emitted chunks share at most the overlap budget, also across skipped windows |
| Windows.FailsExactlyOnOversizedUnit | apps/worker/src/doc_insight/worker/structure.py:124-127 | the window loop fails exactly when a unit alone exceeds the cap |
| Units.PageUnitsAim | apps/worker/src/doc_insight/worker/structure.py:48-79 | a whitespace-bounded slice between units is never empty or reversed, whatever order the tokens of a long word come in |
| Units.PageUnitsDisjoint | apps/worker/src/doc_insight/worker/structure.py:48-79 | with chained tokens the units are nonempty, on the page, and each ends before the next begins |
| Units.PageUnitsStrict | apps/worker/src/doc_insight/worker/structure.py:48-79 | tokens that start in strictly increasing places give nonempty units on the page that do |
| Units.UnitsHold | apps/worker/src/doc_insight/worker/structure.py:48-79 | with gapless tokens every character of a word lies in a unit |
| Chunker.SplitWord | apps/worker/src/doc_insight/worker/structure.py:60-79 | the nested loops compute the maximal pieces between token bounds, moved to the word's place on the page |
| Chunker.FindUnits | apps/worker/src/doc_insight/worker/structure.py:48-57 | the loop yields the units of the page under the page counter |
| Chunker.GrowWindow | apps/worker/src/doc_insight/worker/structure.py:82-92 | the loop returns the maximal window end and the count of that window |
| Chunker.FindOverlapStart | apps/worker/src/doc_insight/worker/structure.py:95-108 | the loop backs up to the specified start |
| Chunker.ChunkPage | apps/worker/src/doc_insight/worker/structure.py:111-144 | returns the chunks of the guarded specification, and under the stated hypotheses what the reference returns |
| Chunker.ReferenceUnits | apps/worker/src/doc_insight/worker/_chunk_reference.py:10-33 | the reference's units, tokenizing only words longer than the cap |
| Chunker.ReferenceChunkPage | apps/worker/src/doc_insight/worker/_chunk_reference.py:36-74 | the nested reference loops compute the windowing with the retokenizing counter |
| Chunker.FastEqualsReference | apps/worker/src/doc_insight/worker/structure.py:111-144 | for every page, cap, overlap and start ordinal, both forms return the same chunks or both fail; locality is needed only on pages that pass both guards |
| Chunker.EveryCharacterIsCovered | apps/worker/src/doc_insight/worker/structure.py:48-144 | for every tokenizer, local or not, whose tokens of an oversized word are ordered and gapless: every character that is not whitespace lies in an emitted chunk |
| Chunker.ChunksAreWellShaped | apps/worker/src/doc_insight/worker/structure.py:82-144 | for every tokenizer, local or monotone or not, whose tokens of an oversized word start in increasing places: the page number and language, consecutive ordinals, nonempty stretches of the page with exactly its text, counts within the cap, strictly increasing starts and ends |
| Chunker.CountsAndOverlapsReencode | apps/worker/src/doc_insight/worker/structure.py:82-144 | under locality and a monotone count: the token count of a chunk is what encoding its text again gives, and consecutive chunks share at most the overlap budget, also across skipped windows |
| Chunker.FailsExactlyWhenAUnitIsTooLarge | apps/worker/src/doc_insight/worker/structure.py:124-127 | the error names the page and is raised exactly when some unit, re-encoded alone, exceeds the cap |
| Chunker.OrdinalsAreConsecutive | apps/worker/src/doc_insight/worker/structure.py:129-140 | ordinals have no gap for any tokenizer at all |
| Chunker.GuardsExactly | apps/worker/src/doc_insight/worker/structure.py:21-37 | the reference is used exactly for pages with a control, format, surrogate, private or separator character other than tab and line ends, or whose token starts or ends run backwards |
| Traces.ChunksFollowWindows | apps/worker/src/doc_insight/worker/structure.py:111-144 | for every tokenizer: there are windows, each the longest within the cap, each next one starting at the longest tail within the overlap budget, from the first unit to the last, and the chunks are cut by exactly those that end past all before them |
| Traces.SplitCuts | apps/worker/src/doc_insight/worker/structure.py:60-79 | the pieces of a long word are cut between its tokens, each the longest run of tokens that fits the cap, with at least one token |
| Traces.WordUnits | apps/worker/src/doc_insight/worker/structure.py:48-57 | a word no longer than the cap or counted within it is one unit; a longer one is cut into pieces |
| Traces.UnitsAreOfWords | apps/worker/src/doc_insight/worker/structure.py:48-57 | the units are those of the words, in order |
| Analysis.Analyze | apps/worker/src/doc_insight/worker/structure.py:162-197 | every page gets the detected language or "und" and is chunked in turn, or the first failing page is reported; entity recognition reads exactly the first ner_max_chars characters of the document, in nonempty pieces; its entities are deduplicated |
| Analysis.Deduplicate | apps/worker/src/doc_insight/worker/structure.py:147-159 | one entity for each normalized spelling and label, in the order of first mentions, each the first mention with the counts of all summed; the total count is conserved |
| Analysis.DeduplicationInFigures | apps/worker/src/doc_insight/worker/structure.py:147-159 | no two results share spelling and label, every mention belongs to a result, and each result is its first mention with the counts of all of them |
| Analysis.ReadingOrder | apps/worker/src/doc_insight/worker/structure.py:150 | mentions are deduplicated in the order of page and offset |
| Analysis.LabelledExactly | apps/worker/src/doc_insight/worker/structure.py:175-183 | a page gets the language guessed from its first characters exactly when the guess is confident enough, and "und" otherwise; number and text stay |
| Order.SortIsStable | apps/worker/src/doc_insight/worker/structure.py:150 | the sort keeps elements of one kind that do not precede each other in their order, so the first of equal mentions stays first |
| Analysis.DocumentOrdinals | apps/worker/src/doc_insight/worker/structure.py:189 | ordinals run through the whole document without a gap |
| WordTokenizer.WordTokenizerIsFaithful | packages/testing/src/doc_insight/testing/structure.py:45-47 | the one-token-per-word tokenizer meets the hypotheses on every text, so there the two forms agree unconditionally |
| Streams.InMemoryStreamConsumer.XGroupCreate | packages/testing/src/doc_insight/testing/streams.py:28-30 | creates what is missing and leaves an existing stream and group alone |
| Streams.InMemoryStreamConsumer.XAdd | packages/testing/src/doc_insight/testing/streams.py:32-36 | appends, and returns the next id |
| Streams.InMemoryStreamConsumer.XReadGroup | packages/testing/src/doc_insight/testing/streams.py:38-46 | delivers the next entries, makes them pending with one attempt, moves the offset past them |
| Streams.InMemoryStreamConsumer.XAck | packages/testing/src/doc_insight/testing/streams.py:48-49 | removes the entry from the pending list and changes nothing else |
| Streams.InMemoryStreamConsumer.XPending | packages/testing/src/doc_insight/testing/streams.py:51-53 | the attempts of a pending entry, zero exactly for entries that are not pending |
| Streams.InMemoryStreamConsumer.XAutoClaim | packages/testing/src/doc_insight/testing/streams.py:55-82 | the scanning loop with its two stop conditions computes the claim, cursor and pending list that the next rows characterize |
| Streams.AutoClaimSpec | packages/testing/src/doc_insight/testing/streams.py:64-82 | one call claims exactly the idle entries of the range it passed, leaves the others as they were, and moves the cursor strictly forward or back to zero |
| Streams.ClaimsAreBounded | packages/testing/src/doc_insight/testing/streams.py:79-80 | a call claims at most count entries |
| Streams.IdleAscend | packages/testing/src/doc_insight/testing/streams.py:72-78 | claims come in stream order, none twice |
| Streams.FullScanClaimsOnce | packages/testing/src/doc_insight/testing/streams.py:55-82 | a scan from cursor zero back to zero, with arbitrary other work between its calls, claims exactly once every entry that stays pending, is delivered to nobody else and was idle at the start |
| Streams.ScanEnds | packages/testing/src/doc_insight/testing/streams.py:81 | over a stream of n entries a scan is back at zero within n calls |
| Streams.PassedExactlyWhen | packages/testing/src/doc_insight/testing/streams.py:72-81 | how far one call goes: it passes a pending entry if and only if fewer than count idle ones and fewer than ten times count pending ones precede it in the scan |
| Streams.StopsForAReason | packages/testing/src/doc_insight/testing/streams.py:79-81 | a call that does not come back to zero claimed exactly count entries or passed exactly ten times count pending ones; no call does more |
| Streams.OneCallSuffices | packages/testing/src/doc_insight/testing/streams.py:64-82 | with at most ten times count entries pending and at most count of them idle, one call claims every idle one, and it is back at zero if and only if no pending entry follows the count-th idle one |
| Streams.ClaimedAllButNotBack | packages/testing/src/doc_insight/testing/streams.py:79-81 | entries 1 and 2 pending, only the first idle, count 1: the call claims it and returns cursor 2 although no idle entry is left |
| Streams.DeliverSpec | packages/testing/src/doc_insight/testing/streams.py:38-46 | a read delivers the next entries up to count, all of them if fewer are left, as pending with one attempt, and touches no other |
| Streams.AcknowledgeSpec | packages/testing/src/doc_insight/testing/streams.py:48-53 | an acknowledged entry has no attempts left and the others keep theirs |
| RetryBudget.StepKeepsSound | apps/worker/src/doc_insight/worker/service.py:53-157 | every step keeps deliveries distinct and counted, and calls of process within the budget |
| RetryBudget.ProcessRunsAtMostMaxAttempts | apps/worker/src/doc_insight/worker/service.py:92-99 | in every run process is called on an entry at most worker_max_attempts times, with any number of workers and crashes and without the lease |
| AckSafety.StepKeepsSafe | apps/worker/src/doc_insight/worker/service.py:46-116 | every step keeps acknowledged entries settled and stored versions recorded |
| AckSafety.AcknowledgedOnlyWhenDurable | apps/worker/src/doc_insight/worker/service.py:46-108 | in every run an acknowledged entry has a dead letter, or names a document stored at the current pipeline version |
| Leases.StepKeepsLeases | docs/worker.md:62-66 | if no worker holds a delivery as long as the claim minimum, every held delivery stays the latest of its entry and pending |
| NoLoss.StepKeepsOutbox | apps/ingest/src/doc_insight/ingest/relay.py:39-62 | every uploaded document keeps its outbox row, and published rows are in the stream |
| NoLoss.StepKeepsStatuses | apps/worker/src/doc_insight/worker/processing.py:86-95 | a document in process is held up by the unacknowledged entry that set the status |
| NoLoss.NoDocumentIsStranded | apps/worker/src/doc_insight/worker/service.py:46-116 | in every run that keeps leases, a document that is uploaded or in process has an unpublished outbox row or an unacknowledged entry that describes it |
| NoLoss.MarkedRowsWerePublished | apps/ingest/src/doc_insight/ingest/relay.py:42-61 | in every run a row marked as published is in the stream |
| LeaseNeeded.WithoutTheLeaseADocumentIsStranded | docs/worker.md:62-66 | a concrete run without the lease that leaves a document in process with nothing left to deliver |
| Services.WorkerService.DeadLetter | apps/worker/src/doc_insight/worker/service.py:46-51 | appends one letter with the fields and attempts, then acknowledges exactly that entry |
| Services.WorkerService.GiveUp | apps/worker/src/doc_insight/worker/service.py:110-116 | marks the document failed, then dead-letters; if the mark fails, nothing is acknowledged |
| Services.WorkerService.Process | apps/worker/src/doc_insight/worker/processing.py:86-95 | the first effect that is not done decides; the document gets as far as in process, or stored at the current version |
| Services.WorkerService.Settle | apps/worker/src/doc_insight/worker/service.py:75-108 | the rest of the handler from the looked-up phase: ending, acknowledgement, letter, and where the document then stands, also after failures |
| Services.WorkerService.Handle | apps/worker/src/doc_insight/worker/service.py:53-108 | for every delivery count, entry, document and reply: the ending, acknowledged and buried exactly for the endings that say so, and the status and version of the document afterwards; no other document changes |
| Services.WorkerService.HandleBatch | apps/worker/src/doc_insight/worker/service.py:152-157 | the pending list afterwards is the old one with exactly the settled messages of the handled part acknowledged; after a stop the rest stays pending |
| Services.WorkerService.RunOnce | apps/worker/src/doc_insight/worker/service.py:118-157 | the pending scan goes first unless it has wrapped and its cooldown is running; new entries are read only if it yields none; the cursor, the cooldown and the pending list afterwards |
| Services.AckAllRemoves | apps/worker/src/doc_insight/worker/service.py:152-157 | exactly the entries whose message was settled leave the pending list, the others keep their deliveries |
| Routing.EndsExactly | apps/worker/src/doc_insight/worker/service.py:53-108 | for every delivery count, entry, document and reply, which of the six endings handling has: skipped, rejected, replayed, given up, succeeded, or left pending |
| Routing.StandsExactly | apps/worker/src/doc_insight/worker/processing.py:86-95 | status and version of the document afterwards: failed if given up, otherwise as far as the effects got within the retry budget |
| Routing.RouteExactly | apps/worker/src/doc_insight/worker/service.py:75-96 | buried exactly if the entry is malformed or differs from its document in digest, object key, media type or size; replayed exactly if stored at the current version; failed exactly past the budget |
| Routing.ProcessedEntriesFit | apps/worker/src/doc_insight/worker/service.py:75-99 | in every run process is called only on an entry that fits its document, within the budget |
| Routing.RegistersExactly | apps/worker/src/doc_insight/worker/uploads.py:55-126 | registration changes nothing for a known digest, and otherwise writes the document and its unpublished event together |
| Routing.StoredWhenStored | apps/worker/src/doc_insight/worker/processing.py:78-84 | a document counts as stored only from a step that left it processed at the current version |
| Relays.OutboxRelay.RunOnce | apps/ingest/src/doc_insight/ingest/relay.py:23-62 | publishes the locked rows in order and marks exactly them; when the publisher fails, what was published stays in the stream, nothing is marked and the locks are gone; a batch below one is refused untouched |
| Relays.SelectRowsSpec | apps/ingest/src/doc_insight/ingest/relay.py:28-38 | the batch holds unpublished, unlocked rows of the tenant in order, and leaves none out before it is full |
| Relays.RelayDrainsTenant | apps/ingest/src/doc_insight/ingest/relay.py:23-62 | a relay alone with a batch that is not filled leaves no row of the tenant unpublished |
| Relays.RelaysNeverShareARow | apps/ingest/src/doc_insight/ingest/relay.py:36-37 | in every run no outbox row is in the hands of two relays |
| Ledger.PostgresUsageLedger.Reserve | apps/query/src/doc_insight/query/usage.py:14-46 | the conditional upsert with its row, or a rejection that changes nothing; on balanced books it succeeds if and only if at least one token is asked for and it fits beside the open tokens and charges of the rows of that day |
| Ledger.PostgresUsageLedger.Settle | apps/query/src/doc_insight/query/usage.py:48-85 | settles the tenant's open row, booked to the day of the reservation; otherwise a no-op |
| Ledger.InMemoryUsageLedger.Reserve | packages/testing/src/doc_insight/testing/usage.py:37-48 | accepts exactly when at least one token is asked for and the recomputed sums leave room |
| Ledger.InMemoryUsageLedger.Settle | packages/testing/src/doc_insight/testing/usage.py:50-56 | replaces the tenant's reserved entry, otherwise a no-op |
| Ledger.EveryHistoryBalances | apps/query/src/doc_insight/query/usage.py:14-85 | in every interleaving, reserved is the sum of open reservations, charged the sum of settled charges of the reservation's own day, and their total exceeds the limit by at most the overshoot of settlements |
| Ledger.ReservationsAreAcceptedExactlyWhen | apps/query/src/doc_insight/query/usage.py:14-33 | in every history over any days and tenants, a reservation is accepted if and only if it asks for at least one token and fits, beside the open tokens and charges of the rows of its own tenant and day, within the limit |
| Ledger.AcceptedIsRecorded | apps/query/src/doc_insight/query/usage.py:20-45 | an accepted reservation adds one open row and reserves its tokens on its own day and no other |
| Ledger.SettlementIsRecorded | apps/query/src/doc_insight/query/usage.py:48-85 | known usage charges input plus output, unknown usage the whole reservation; the reserved tokens are released on the day of the reservation, all else stays |
| Ledger.OtherwiseNothing | apps/query/src/doc_insight/query/usage.py:55-72 | settling what is not an open reservation of the tenant changes nothing |
| Ledger.WithinTheLimit | apps/query/src/doc_insight/query/usage.py:22-33 | when no settlement of the day exceeds its reservation, the day never exceeds the limit |
| Ledger.SettledForGood | apps/query/src/doc_insight/query/usage.py:55-72 | a settled row never changes again |
| Ledger.BalancedExactlyUnlessReopened | apps/query/src/doc_insight/query/usage.py:56-60 | settlement keeps the books balanced if and only if it does not give an open row the outcome `reserved` |
| Ledger.LedgersAgree | packages/testing/src/doc_insight/testing/usage.py:15-60 | on any single-day history the running totals and the recomputing ledger accept the same reservations and report the same summaries |
| Breaker.CircuitBreaker.Acquire | apps/query/src/doc_insight/query/breaker.py:18-25 | rejects during cooldown and while a probe is in flight, otherwise issues the epoch; IssuesExactlyWhen tells when, read off the history |
| Breaker.CircuitBreaker.Finish | apps/query/src/doc_insight/query/breaker.py:27-42 | applies a result of the current epoch only |
| Breaker.SoundAt | apps/query/src/doc_insight/query/breaker.py:18-42 | the invariant of every run in which each ticket is finished at most once, on any clock |
| Breaker.OneProbePerOpenEpoch | apps/query/src/doc_insight/query/breaker.py:21-25 | on any clock, an open epoch has at most one ticket, an unfinished probe, and rejects everyone meanwhile |
| Breaker.OldTicketsAreIgnored | apps/query/src/doc_insight/query/breaker.py:30-32 | on any clock, a ticket that was overtaken by a newer epoch never changes the state |
| Breaker.FailuresCountTheStreak | apps/query/src/doc_insight/query/breaker.py:33-42 | read off the history of operations: the last `failures` completions that counted all failed, and the one before them succeeded or does not exist; while closed it is below the limit |
| Breaker.OpensExactlyWhen | apps/query/src/doc_insight/query/breaker.py:38-42 | in every run the breaker opens exactly when a current probe fails, or a current call fails and with it the last `limit` completions that counted have all failed |
| Breaker.IssuesExactlyWhen | apps/query/src/doc_insight/query/breaker.py:18-25 | in every history a closed breaker issues a ticket to every caller, an open one if and only if the cooldown has passed since the completion that opened it and no ticket issued since then is unfinished |
| Breaker.OpenSinceIs | apps/query/src/doc_insight/query/breaker.py:27-42 | which completion the breaker is open since, read off the history: the last that tripped it, unless a later one closed it |
| Breaker.ProbesAreSpaced | apps/query/src/doc_insight/query/breaker.py:21-25 | on a clock that does not run backwards, n probes without a success between them take at least (n - 1) cooldowns |
| Breaker.UnfinishedProbeBlocks | apps/query/src/doc_insight/query/breaker.py:21-24 | a probe that is never finished keeps the breaker rejecting for good |
| Hosted.OutcomesSettle | apps/query/src/doc_insight/query/generation.py:68-84 | no outcome passed to settlement is the one that marks a reservation as open |
| Hosted.FallbackGenerator.Adapter | apps/query/src/doc_insight/query/openai_provider.py:151-170 | slots are restored on every path; disabled without a key, busy without a slot, circuit_open without a ticket, and otherwise the result of the call; a call that is not sent changes nothing; the ticket of one that is sent is finished for success and for every caught error family |
| Hosted.FallbackGenerator.Hosted | apps/query/src/doc_insight/query/generation.py:54-84 | a reservation obtained is settled on every path with the usage and outcome of the result; a refused one touches nothing; without a ledger the call is made all the same |
| Hosted.FallbackGenerator.Generate | apps/query/src/doc_insight/query/generation.py:30-52 | exactly when the hosted provider answers, the reason and usage reported in every other case, and the books afterwards |
| Hosted.SoundAt | apps/query/src/doc_insight/query/openai_provider.py:151-170 | any number of interleaved calls keep the ledger balanced, the breaker sound and the slots accounted for |
| Hosted.EveryCallSettlesOnce | apps/query/src/doc_insight/query/generation.py:69-84 | a finished call settled exactly once, and finished its ticket exactly once unless it ended in an index error |
| Hosted.ChargesByOutcome | apps/query/src/doc_insight/query/generation.py:67-84 | a call without a ticket, which is exactly one that ends busy, with an open circuit or without a key, costs nothing, nor does a 4xx; unknown usage costs the whole reservation, known usage itself |
| Hosted.OutcomesAreRecorded | apps/query/src/doc_insight/query/generation.py:67-84 | in every run a finished call is recorded with the outcome of its result: completed, the reason of the failure, rejected for a 4xx, unknown for any other error |
| Hosted.StepsDecideResults | apps/query/src/doc_insight/query/openai_provider.py:151-170 | where each step takes its call: a missing key and full slots end it, the breaker admits or ends it, the reply becomes its result and stays it |
| Hosted.NothingLeaks | apps/query/src/doc_insight/query/generation.py:81-84 | when all calls are done, all slots are free and nothing is reserved for any tenant or day |
| Hosted.SlotsBoundCalls | apps/query/src/doc_insight/query/openai_provider.py:155-170 | calls in flight plus free slots is always the configured concurrency |
| Hosted.IndexErrorOnProbeBlocks | apps/query/src/doc_insight/query/openai_provider.py:159-170 | if the call that holds a recovery probe ended in an index error, the breaker never changes again and every later call that reaches it ends with circuit_open |
| Hosted.ProbeCanBeLost | apps/query/src/doc_insight/query/openai_provider.py:164 | a concrete run that reaches that state |
| RateLimit.FakeRateLimiter.Consume | packages/testing/src/doc_insight/testing/gateway.py:33-44 | the bucket as one step, kept for good |
| RateLimit.TokensStayInRange | packages/testing/src/doc_insight/testing/gateway.py:33-44 | in a kept bucket tokens stay between zero and burst, and the stored time is the highest reading so far |
| RateLimit.RemainingIsExact | packages/testing/src/doc_insight/testing/gateway.py:37-44 | the remaining count told with every decision, allowed or denied, is exactly how many more requests would be allowed at that reading |
| RateLimit.RequestsAreBounded | packages/testing/src/doc_insight/testing/gateway.py:33-44 | a kept bucket allows between any two requests at most burst plus rate times the advance of the highest reading, also when the clock goes backwards |
| RateLimit.DeniedAttemptsChangeNothing | packages/testing/src/doc_insight/testing/gateway.py:33-44 | in a kept bucket on a clock that does not run backwards, inserting a denied attempt changes no other decision |
| KeyExpiry.RedisRateLimiter.Consume | apps/gateway/src/doc_insight/gateway/rate_limit.py:11-29 | the script as one step on what the expiry has left of the key, which it renews |
| KeyExpiry.StoredTokensStayInRange | apps/gateway/src/doc_insight/gateway/rate_limit.py:18-26 | whatever the clock does, the stored tokens stay between zero and burst |
| KeyExpiry.KeyDecidesAlike | apps/gateway/src/doc_insight/gateway/rate_limit.py:11-29 | the expiring key decides like a kept bucket on all readings at which a key that is gone would have been full |
| KeyExpiry.ExpiryIsSafeExactlyWhen | apps/gateway/src/doc_insight/gateway/rate_limit.py:11-29 | for readings that lag at most so far behind the highest: the bound holds for all of them, and expiry changes no decision, if and only if the time to live less the lag still fills the bucket |
| KeyExpiry.AbsorbedLags | apps/gateway/src/doc_insight/gateway/rate_limit.py:27 | a clock that does not lag always meets that condition, a lag of a millisecond never does |
| KeyExpiry.SetbackAllowsTooMany | apps/gateway/src/doc_insight/gateway/rate_limit.py:26-27 | rate 1, burst 1, readings 100, 50, 51: two requests are allowed against a bound of one |
| KeyExpiry.IdentitiesAreSeparate | apps/gateway/src/doc_insight/gateway/rate_limit.py:32-34 | in a run over the shared store each identity is told what its key alone would say |
| KeyExpiry.RedisRequestsAreBounded | apps/gateway/src/doc_insight/gateway/rate_limit.py:11-29 | the bound for each identity in every run over the shared store, if its readings lag no more than the time to live absorbs |
| KeyExpiry.SteadyClockIsSafe | apps/gateway/src/doc_insight/gateway/rate_limit.py:11-29 | on a clock that does not run backwards the shared store decides like kept buckets and obeys the bound |
| KeyExpiry.ExpiryChangesNothing | apps/gateway/src/doc_insight/gateway/rate_limit.py:27 | on such a clock both limiters decide alike from all stores that match, for any requests of any identities |
| KeyExpiry.DeniedAttemptsLeaveNoTrace | apps/gateway/src/doc_insight/gateway/rate_limit.py:20-27 | on such a clock inserting a denied attempt changes no other decision of the expiring key, although it renews the expiry |
| KeyExpiry.RetryIsLeast | apps/gateway/src/doc_insight/gateway/rate_limit.py:23-27 | the delay told is the least whole number of seconds after which an undisturbed request is allowed, on a clock that does not lag behind the stored bucket (section 10.2.3 of RFC 9110) |
| KeyExpiry.RetryIsLeastExactlyWhen | apps/gateway/src/doc_insight/gateway/rate_limit.py:18-27 | for any stored key and any clock, the delay told is right if and only if wait plus lag, cut short by the time to live, ends in the same whole second as the wait |
| KeyExpiry.RetryCanBeTooShort | apps/gateway/src/doc_insight/gateway/rate_limit.py:23-27 | rate 1, burst 2, readings 100, 100, 99, 100: the third is denied with a delay of one second, and after one second still denied |
| Fusion.Fuse | apps/query/src/doc_insight/query/ranking.py:89-111 | exactly the found keys, each once, with its exact score and its first hit, in the order by descending score and then key; k below one is refused |
| Fusion.FirstRankIsFirst | apps/query/src/doc_insight/query/ranking.py:100-107 | later occurrences in a ranking do not count |
| Fusion.ScoreInFigures | apps/query/src/doc_insight/query/ranking.py:99-107 | a ranking adds the reciprocal of k plus the first rank to the score of a key it has |
| Fusion.FirstHitIsFirst | apps/query/src/doc_insight/query/ranking.py:101-109 | the hit kept is the first with its key in the first ranking that has the key |
| Fusion.FusedOrder | apps/query/src/doc_insight/query/ranking.py:108-111 | scores descend, ties go by ascending document id and then ascending ordinal, and no key comes twice |
| Order.BeforeExactly | apps/query/src/doc_insight/query/ranking.py:110 | a higher score comes first, then the lower document id, then the lower ordinal |
| Order.TextLessExactly | apps/query/src/doc_insight/query/ranking.py:110 | ids compare by the first character in which they differ, and a proper prefix comes first |
| Fusion.OrderIsUnique | apps/query/src/doc_insight/query/ranking.py:108-111 | only one listing is in that order |
| Fusion.FusionIgnoresOrder | apps/query/src/doc_insight/query/ranking.py:97-111 | keys, scores and order do not depend on the order of the rankings |
| Fusion.AgreementWinsExactlyWhen | apps/query/src/doc_insight/query/retrieval.py:46-50 | for two rankings of depth at most cap, what both found precedes what one found, if and only if k + 2 > cap; the same holds among rankings without duplicates |
| Fusion.DefaultsPreferAgreement | apps/query/src/doc_insight/query/settings.py:22-23 | so it does with the defaults 60 and 20 |
| Repository.InMemoryRepository.Locate | packages/testing/src/doc_insight/testing/storage.py:56-64 | the scan finds the first document of the tenant that matches, if any |
| Repository.InMemoryRepository.Do | packages/testing/src/doc_insight/testing/storage.py:35-223 | registration, status, upsert, replacement, lookups, names, listing and both searches equal the specification whose effects the rows of Writes and Listings state |
| Writes.RegisterStores | packages/testing/src/doc_insight/testing/storage.py:66-99 | a known digest is answered as it is; a new one is stored with the given fields, found by a later lookup, and announced by its event |
| Writes.MarkStatusStores | packages/testing/src/doc_insight/testing/storage.py:101-113 | a later lookup shows the status, the error of a failure only, and the rest as before; every other document stays equal |
| Writes.UpsertStores | packages/testing/src/doc_insight/testing/storage.py:115-135 | a later lookup shows the given filename, media type, chunks and output, processed without error; a known digest keeps identity, creation time, size and object key and gets a processing time past the last one; every other document stays equal; invalid input changes nothing |
| Writes.ReplaceStores | packages/testing/src/doc_insight/testing/storage.py:137-150 | a later lookup shows the given chunks and output and the rest as before; a malformed embedding or a missing document changes nothing |
| Writes.GetAnswers | packages/testing/src/doc_insight/testing/storage.py:152-154 | a lookup by id answers a document of the tenant with that id, and misses only if there is none |
| Writes.FindDigestAnswers | packages/testing/src/doc_insight/testing/storage.py:56-64 | a lookup by digest answers a document of the tenant with that digest, and misses only if there is none |
| Writes.NamesAnswer | packages/testing/src/doc_insight/testing/storage.py:35-40 | the names are the ids and filenames of the tenant's documents, in the order they were stored |
| Writes.RefusedExactlyWhen | packages/testing/src/doc_insight/testing/storage.py:42-216 | exactly which pages and searches are refused: limits outside 1 to 100, negative offsets, fewer than one hit, vectors of the wrong dimension or zero |
| Repository.InMemoryRepository.NearestChunks | packages/testing/src/doc_insight/testing/storage.py:156-194 | the nested loops score exactly the tenant's passages in scope; the best k are returned |
| Repository.InMemoryRepository.TextSearch | packages/testing/src/doc_insight/testing/storage.py:206-223 | the text search over candidates bounded by the size of the whole store |
| Listings.BoundNeverCuts | packages/testing/src/doc_insight/testing/storage.py:211-216 | that bound, which counts the passages of all tenants, never cuts off a hit of the tenant |
| Listings.NearestAreBest | packages/testing/src/doc_insight/testing/storage.py:171-194 | by descending similarity, ties by document id and ordinal, as many hits as there are up to k, each a passage of the tenant in scope with its similarity, and none left out is better |
| Listings.SearchFindsBest | packages/testing/src/doc_insight/testing/storage.py:206-223 | the best k, in the same order, of exactly the tenant's passages in scope whose text scores |
| Listings.ListingIsComplete | packages/testing/src/doc_insight/testing/storage.py:42-49 | the listing holds the tenant's documents, each as often as it is stored, newest first with ties by id |
| Listings.PageHolds | packages/testing/src/doc_insight/testing/storage.py:45-49 | a page holds the entries from its offset on, as many as there are up to its limit |
| Listings.PagesJoin | packages/testing/src/doc_insight/testing/storage.py:49 | consecutive pages join without gap or repetition |
| Tenants.OperationsRespectViews | packages/testing/src/doc_insight/testing/storage.py:35-223 | an operation, reads and searches included, does to its tenant's view what it does to the store, with the same answer, and leaves every other view alone |
| Tenants.TenantsDoNotInterfere | packages/testing/src/doc_insight/testing/storage.py:34-223 | removing all other tenants' operations from a run changes none of a tenant's answers - lookups, names, listings, similarity and text search - nor its documents and events |
| Tenants.OperationsKeepDocuments | packages/testing/src/doc_insight/testing/storage.py:115-135 | identity, digest and creation time of a stored document never change, and an operation adds at most one document |
| Tenants.OneEventPerRegistration | packages/testing/src/doc_insight/testing/storage.py:75-99 | registration adds a document together with exactly one event, or neither; nothing else adds events |
| Tenants.OneEventPerDocument | packages/testing/src/doc_insight/testing/storage.py:66-99 | in every run the events announce distinct stored documents, never the same digest of a tenant twice |
| Tenants.OneDocumentPerDigest | packages/testing/src/doc_insight/testing/storage.py:66-135 | in every run a tenant has at most one document per digest |
| Tenants.EmbeddingsAreValid | packages/testing/src/doc_insight/testing/storage.py:115-150 | in every run every stored embedding is a nonzero vector of the index dimension, so no stored passage makes a search fail |
| KeyCache.SigningKeys | apps/gateway/src/doc_insight/gateway/auth.py:20-39 | succeeds exactly when there is a usable key, every usable key is acceptable and identifiers are distinct; then holds exactly those keys |
| KeyCache.OnlySignatureKeysAreTaken | apps/gateway/src/doc_insight/gateway/auth.py:23-36 | a key that is taken is a strong public RSA key for verifying RS256 signatures, under its own nonempty identifier |
| KeyCache.EverySignatureKeyIsTaken | apps/gateway/src/doc_insight/gateway/auth.py:23-36 | every such item of an accepted set is taken under its identifier |
| KeyCache.Authenticator.Key | apps/gateway/src/doc_insight/gateway/auth.py:64-77 | the refresh is postponed before the fetch; the keys and expiry change only after a successful one; AnswersExactlyWhen tells what is answered over a run |
| KeyCache.FetchesAreSpaced | apps/gateway/src/doc_insight/gateway/auth.py:68-73 | n fetches, failed or not, take at least (n - 1) refresh intervals |
| KeyCache.AnswersExactlyWhen | apps/gateway/src/doc_insight/gateway/auth.py:64-77 | in every run a call fetches if and only if the last fetched set lacks the identifier or has expired and the last start lies a refresh interval back; it is answered with a key if and only if its own fetch did not fail and the last successful one offers the identifier and completed less than the lifetime before |
| KeyCache.ReturnedKeysAreFresh | apps/gateway/src/doc_insight/gateway/auth.py:73-77 | a returned key is the last fetched one for its identifier, from a fetch completed less than the cache lifetime ago |
| KeyCache.RefreshIsPermittedByExpiry | apps/gateway/src/doc_insight/gateway/settings.py:46-50 | after a successful fetch the next one is permitted no later than the keys expire |

## Left out

- Chunker.ChunkPage: token offsets outside the encoded text are not modelled as index errors; the equivalence assumes offsets inside it.
- Analysis.Analyze: the detector, the entity recognizer and the normalization of spellings are arbitrary functions; the confidence stored with a page and the document's language vote are left out.
- Streams.InMemoryStreamConsumer.XReadGroup: a missing stream or group, a KeyError in the program, is excluded by the precondition here and in the other group operations.
- Services.WorkerService.Handle: run without interference from other participants; interleavings are covered by the protocol, whose steps are the same.
- Services.WorkerService.RunOnce: heartbeats and blocking times are not modelled, and the group is taken to exist; the protocol itself lets a worker reclaim or read at any time the cursor allows.
- Services.WorkerService.Process: the download checks and the pipeline before the output is stored are one reply.
- Ledger.PostgresUsageLedger.Reserve: 64-bit overflow and the table checks are not modelled; the totals are unbounded integers, proved nonnegative.
- Hosted.FallbackGenerator.Hosted: exceptions outside the families caught by `generate`, and a process that dies between reserve and settle are not modelled.
- KeyExpiry.RedisRateLimiter.Consume: real arithmetic instead of floating point, an exact time to live instead of the server's millisecond clock, and identities in place of their digests.
- Fusion.Fuse: real arithmetic instead of floating point.
- Repository.InMemoryRepository.Do: the similarity and the text score are arbitrary functions of real numbers; `validate_vector`'s test for finite numbers has no counterpart, the other checks of `prepare_document` are one boolean, and the snapshot is the tenant's view.
- KeyCache.SigningKeys: key parsing and the RSA test are one boolean per item; the token itself is not verified.
- Database, stream and object store engines: a transaction or script is one atomic step over maps and sequences; outbox order stands for the order by creation time and id.
- `download` and the pipeline: one step that stores the output, fails for good or fails for now.
- `confidence`, `should_abstain`, `assess_generation`, `words` and `named_scope`: single expressions over word sets.
- HTTP routing, the proxy, telemetry, the command line, the frontend, migrations and deployment.
