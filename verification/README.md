# Verification of MemoFlow's protocols, text pipeline, metering and ledgers

Dafny models of the parts of the MemoFlow backend whose correctness spans several functions or several actors, and
proofs about every input, every interleaving or every run of them.

- **Planning jobs** (`PlanningJobs`, `ContextAssembly`, `JobProtocol`, `ContextUseCases`, `JobOutcomes`, `ResultsConsumer`,
  `DeliveryOutcomes`, `ConsumerSimulation`). One stored document per job, moved by a submitter, queue workers, chunk
  handlers and a timeout. Each repository call is one atomic step and each use case a program counter; a call can also stop
  for good anywhere, even right after a write whose acknowledgement was lost. Chunk arrays and statuses are updated in place
  by a repository class; the use cases are methods on it, each proved to end as it should and equal to its own program
  counters taken alone. The consumer keeps each job's deliveries in order, and its runs together with the job's other actors
  are proved to be runs of the protocol.
- **In-process protocols** (`PromptCache`, `SocketGateway`). The generation counter of the active-prompt cache, and the
  WebSocket handshake, which joins the room before it reads the account, with its capped and re-arming expiry timers.
- **Text to and from the model** (`Utf16`, `Scanning`, `PromptTemplates`, `PromptGuards`, `MarkerJoins`, `PromptFences`,
  `PlanningSources`, `SingleLines`, `SourceBudget`, `PlanningMessage`, `CitationScanner`, `PlanningCitations`, `CitationCleaning`,
  `CitationJoins`, `CitedSources`, `FirstPlaces`, `Utf8`, `CacheKeys`, `SuggestionCache`, `Decimals`). Texts are sequences
  of UTF-16 code units. Each regular expression is an explicit leftmost scanner, proved against a declarative description of
  what it matches.
- **Metered retries** (`LlmGateway`, `AiQuota`, `MeteredCalls`). The gateway's shared deadline and retry budget, the
  two-counter daily quota, and the two together.
- **Ledgers and arithmetic** (`Gamification`, `LedgerTransactions`, `DocumentVersions`, `Sections`, `SectionOrder`,
  `SnapshotRestore`, `CalendarMonths`, `LeadScore`). The XP transactions are modelled twice: whole, and statement by
  statement under the database's row locks, the second proved to do what the first does.

`dafny verify dfyconfig.toml` checks all of it.

## Assumptions about the environment

- The planning protocol is safe under three assumptions, and `JobProtocol.SafeExactlyUnderContract` shows that it needs
  each: an enqueue that was rejected was not delivered, a publish that was rejected was not delivered, and the context
  engine sends nothing for a job before the job's request was published.
- A database statement, a stored script and a call of a document repository are atomic. A transaction of the relational
  database is atomic too, save for the XP transactions, whose statements interleave: each sees what is committed, and waits
  for rows and keys that another open transaction has written. Time stamps of documents are not modelled, other than the
  creation time that sections are sorted by.
- What the outside returns (user checks, connectors, gathered context, planning results, retrieval metadata, provider
  replies, clocks, random jitter) is an arbitrary answer or an argument. SHA-256 is a constructor that stands for its
  input, so it has no collisions. Redaction and the leak check are arbitrary functions: no result depends on what they do.
- Query results that a method works from (`MAX(order)`, the sorted list of sections) are arguments constrained to what the
  query promises; rows that tie in the sort may come in any order.

## Where the code and its comments differ

The model follows the code in each of these, and a lemma gives the exact condition.

- `cutAtBoundary` says that its result is never longer than `max`. With `max` below 1 and a text to cut, the ellipsis alone
  is longer (`PlanningSources.CutFits`, `PlanningSources.CutOverrunsNothing`). No caller passes such a `max`.
- `validateCitations` says that citations of unknown sources are removed. The replacement is a single pass, so deleting a
  nested citation can put another one together (`CitationJoins.CleanedOnlyKnown`, `CitationJoins.IdempotentExactly`,
  `CitationJoins.NestedCitation`).
- `budgetSources` defuses every title and every excerpt, not the line break between them: a title that ends in `<` and an
  excerpt that starts with the rest of a marker form one (`PlanningMessage.PlanningMessageFences`,
  `PlanningMessage.JoinBreaksFence`).
- `incrementAtomic` lets progress pass a target below 1 (`Gamification.ProgressWithinTarget`).
- Restored sections share their creation time, so legacy rows that share an order can come back in another order
  (`SnapshotRestore.SaveRestoreSave`).
- `addCalendarMonths` reads years 0 to 99 as 1900s, so it is not monotone across the turn of year 99; past year 9999 it
  returns no date, and such strings sort first (`CalendarMonths.AddIsMonthsLater`, `CalendarMonths.MonotoneInDate`,
  `CalendarMonths.AddedTextIsADate`, `LeadScore.WindowsExactly`).
- A counter "outlives its UTC day, so it is never cut short" by an hour of the store's clock: a reservation that reaches the
  store later than that after its instance read the clock starts the day's count again. The daily caps hold exactly when
  none does (`AiQuota.CapsHoldExactly`).

## Model

| member | source | states |
|---|---|---|
| PlanningJobs.PlanningJobRepository.PatchStatus | src/infrastructure/persistence/context/planning-job.mongoose.repository.ts:40-49 | the status is written without a guard, other fields only when given, in place, no other job touched |
| PlanningJobs.PlanningJobRepository.ClaimProcessing | src/infrastructure/persistence/context/planning-job.mongoose.repository.ts:51-66 | wins exactly on a pending job and moves it to running; otherwise changes nothing |
| PlanningJobs.PlanningJobRepository.ClaimGathering | src/infrastructure/persistence/context/planning-job.mongoose.repository.ts:67-80 | wins exactly on a pending job and moves it to gathering |
| PlanningJobs.PlanningJobRepository.ClaimPlanning | src/infrastructure/persistence/context/planning-job.mongoose.repository.ts:121-138 | wins exactly on a gathering job and stores the context with the move to planning |
| PlanningJobs.PlanningJobRepository.FailGathering | src/infrastructure/persistence/context/planning-job.mongoose.repository.ts:140-162 | wins exactly on a gathering job and fails it with the code |
| PlanningJobs.PlanningJobRepository.Append | src/infrastructure/persistence/context/planning-job.mongoose.repository.ts:82-119 | a sequence number is recorded at most once; a status chunk records no data; a refused append reports the current job |
| ContextAssembly.AssembledFromTheSet | src/application/context/handle-context-result-chunk.use-case.ts:224-235 | the assembled context depends on the set of recorded chunks only, sorted by sequence, each chunk once |
| ContextAssembly.RecordedSequences | src/infrastructure/persistence/context/planning-job.mongoose.repository.ts:82-119 | after any deliveries every sequence number seen is recorded exactly once |
| ContextAssembly.FirstDeliveryInContext | src/infrastructure/persistence/context/planning-job.mongoose.repository.ts:82-119 | the first data delivery of a sequence number is in the context, whatever is delivered around it |
| ContextAssembly.OrderIndependence | src/application/context/handle-context-result-chunk.use-case.ts:224-235 | order and repetition of deliveries never change the context exactly when deliveries that share a number agree on what they contribute |
| JobProtocol.NextKeepsInv | src/infrastructure/persistence/context/planning-job.mongoose.repository.ts:40-162 | every step of every actor keeps the protocol invariant: one owner of the job at a time, and guards that match the owner |
| JobProtocol.EveryRunIsSafe | src/application/context/process-planning-job.use-case.ts:215-335 | in every interleaving of submission, workers, queue retries, handlers, redeliveries and timeouts the status moves only along the drawn edges and at most one call reports ending the job |
| JobProtocol.TerminalIsFrozen | src/infrastructure/persistence/context/planning-job.mongoose.repository.ts:40-162 | a completed or failed job keeps status, result, error code and context for ever |
| JobProtocol.ClaimedIsLeftAlone | src/infrastructure/persistence/context/planning-job.mongoose.repository.ts:121-162 | once a call has claimed the job for planning, no worker, timeout or submitter writes to it any more |
| JobProtocol.SafeExactlyUnderContract | src/application/context/process-planning-job.use-case.ts:260-335 | all runs are safe exactly when no rejected enqueue and no rejected publish is delivered and the engine sends nothing before the publish; each of the three is needed |
| ContextUseCases.RunClaimedPlanning | src/application/context/run-claimed-planning.ts:32-104 | one terminal write: a success stores the text as the result and leaves the code, a failure stores it as the code and leaves the result, both with the context the claim was made with |
| ContextUseCases.FinalizeCompleted | src/application/context/handle-context-result-chunk.use-case.ts:173-202 | claims a gathering job and plans it with everything recorded, or changes nothing on a lost claim |
| ContextUseCases.FinalizeFailed | src/application/context/handle-context-result-chunk.use-case.ts:204-222 | fails a gathering job with the code given if it is one of the two allowed, otherwise with the general one |
| ContextUseCases.HandleChunk | src/application/context/handle-context-result-chunk.use-case.ts:98-171 | alone: refuses unknown jobs and other users, ignores duplicates and ended jobs, records any other chunk at the end, and ends a gathering job exactly on a final chunk, planned with all recorded data or failed with an allowed code |
| ContextUseCases.HandleGatherTimeout | src/application/context/handle-gather-timeout.use-case.ts:43-60 | times out exactly a job that is still gathering |
| ContextUseCases.ProcessLegacy | src/application/context/process-planning-job.use-case.ts:108-213 | processes exactly a pending job and ends it with one write: the text as result or as code, and the gathered context if there is one |
| ContextUseCases.PlanWithoutGathering | src/application/context/process-planning-job.use-case.ts:266-290 | plans a job that is still gathering without context, or loses the claim, changes nothing and reports the job as not processed |
| ContextUseCases.ProcessViaTransport | src/application/context/process-planning-job.use-case.ts:215-335 | processes exactly a pending job: failed by the user check or a rejected publish, planned at once with nothing to gather, otherwise left gathering |
| JobOutcomes.OneEnding | src/infrastructure/persistence/context/planning-job.mongoose.repository.ts:40-162 | in every run one step at most ends the job |
| JobOutcomes.OutcomeIsOfTheEnding | src/application/context/process-planning-job.use-case.ts:108-335 | in every run an ended job holds, for ever, what the one step that ended it brought: a planning step its own text as result or code and the context it planned with, every other end its own code |
| JobOutcomes.CompletedByPlanning | src/application/context/run-claimed-planning.ts:84-104 | a completed job holds the text of a planning step that succeeded, no code, and the context that step planned with |
| JobOutcomes.ReportedExactly | src/application/context/process-planning-job.use-case.ts:108-335 | in every run a call reports that it ended the job exactly when the one step that ended it was its own and was acknowledged; the submission likewise |
| JobOutcomes.TimeoutRuns | src/application/context/handle-gather-timeout.use-case.ts:43-60 | from every state in which a request was just published the timeout is scheduled, can fire, and fails the job exactly when it is still gathering |
| ResultsConsumer.JobChains.RunInJobOrder | src/infrastructure/amqp/context-results.consumer.ts:222-241 | a delivery waits for the tail of its job's chain and becomes the tail |
| ResultsConsumer.JobChains.RunFinally | src/infrastructure/amqp/context-results.consumer.ts:222-241 | a drained chain is removed only by its own last delivery |
| ResultsConsumer.OrderKept | src/infrastructure/amqp/context-results.consumer.ts:192-241 | every event keeps delivery order and the meaning of the chain entry |
| ResultsConsumer.OneAtATime | src/infrastructure/amqp/context-results.consumer.ts:142-241 | in every run one delivery of a job is handled at a time, after all earlier ones, and the map has an entry exactly while the job has unfinished work |
| ResultsConsumer.OutsideIsDerived | src/infrastructure/persistence/context/planning-job.mongoose.repository.ts:40-162 | what the lanes allow other actors to do covers every step these take in any run of the job protocol |
| ResultsConsumer.WinnerHoldsAllDeliveries | src/infrastructure/amqp/context-results.consumer.ts:243-302 | without requeues, the context of a job whose completed chunk won is what was recorded when the consumer started and all its own deliveries up to that chunk amount to |
| DeliveryOutcomes.SettledAs | src/infrastructure/amqp/context-results.consumer.ts:243-302 | in every run a settled delivery went back on the queue exactly when a step of its handling was not acknowledged or it was broken off, was dead-lettered exactly when its job was unknown or another user's, and was acked otherwise, as terminal exactly when its handling ended the job |
| DeliveryOutcomes.DataHandled | src/infrastructure/amqp/context-results.consumer.ts:243-302 | a new data chunk handled without a failure is recorded at the end and acked, not terminal |
| DeliveryOutcomes.CompletedHandled | src/infrastructure/amqp/context-results.consumer.ts:243-302 | a completed chunk of a gathering job handled without a failure plans the job with all recorded data and is acked as terminal |
| DeliveryOutcomes.DataThenCompleted | src/infrastructure/amqp/context-results.consumer.ts:222-302 | for every gathering job such a run exists: a data chunk, then a completed chunk that wins with the first one's data, both acked, nothing requeued |
| ConsumerSimulation.ConsumerRunIsProtocolRun | src/infrastructure/amqp/context-results.consumer.ts:142-302 | every run of the consumer of a job with the job's other actors, from any point on, is a run of the job protocol: deliveries are its handler calls, and no assumption about the others is left |
| ConsumerSimulation.WinnerHoldsAll | src/infrastructure/amqp/context-results.consumer.ts:142-302 | in every such run, also after a restart, the winner's context holds what was recorded before and every delivery up to it, and at most one call reports ending the job |
| ConsumerSimulation.DataThenCompleted | src/infrastructure/amqp/context-results.consumer.ts:142-302 | from every submission on such a joint run exists: enqueue, claim, publish, a data chunk acked, and a completed chunk that wins and is acked as terminal |
| PromptCache.ActivationReplacesOne | src/infrastructure/persistence/ai/prompt.typeorm.repository.ts:102-134 | an activation replaces the active prompt of its feature type and no other |
| PromptCache.ActivePromptCache.BeginLookup | src/infrastructure/persistence/ai/prompt.typeorm.repository.ts:48-64 | answers from an entry exactly while it has not expired, and notes the generation the query starts under |
| PromptCache.ActivePromptCache.FinishLookup | src/infrastructure/persistence/ai/prompt.typeorm.repository.ts:48-64 | stores the answer for 60 seconds, and only when no clear came in between |
| PromptCache.ActivePromptCache.ClearActiveCache | src/infrastructure/persistence/ai/prompt.typeorm.repository.ts:136-139 | empties the cache and starts a new generation |
| PromptCache.AnsweredFromCacheExactly | src/infrastructure/persistence/ai/prompt.typeorm.repository.ts:44-64 | in every run a lookup is answered without a query exactly when an answer for its feature type was stored less than 60 seconds before and the cache was not cleared since, and then with that answer |
| PromptCache.EveryRunInv | src/infrastructure/persistence/ai/prompt.typeorm.repository.ts:44-139 | in every interleaving a cache entry is the answer to a read after every commit that has cleared |
| PromptCache.CacheAgreesWithDatabase | src/infrastructure/persistence/ai/prompt.typeorm.repository.ts:44-64 | with no activation between commit and clear, every entry, none included, equals the active prompt in the database |
| PromptCache.LookupAfterActivationIsFresh | src/infrastructure/persistence/ai/prompt.typeorm.repository.ts:102-139 | a lookup started after an activation returned never answers with the replaced prompt |
| PromptCache.ActivatedIsServed | src/infrastructure/persistence/ai/prompt.typeorm.repository.ts:44-139 | from every state of every run a prompt can be activated; it is then the only active one of its feature type, and the next lookup answers with it and keeps it |
| SocketGateway.ExpiryTimers.ScheduleExpiry | src/presentation/context/planning.gateway.ts:192-208 | replaces the socket's timer by one due no later than the expiry, or refuses an expired token |
| SocketGateway.ExpiryTimers.ClearExpiry | src/presentation/context/planning.gateway.ts:210-216 | forgets and disarms the socket's timer |
| SocketGateway.ExpiryTimers.TimerFires | src/presentation/context/planning.gateway.ts:192-208 | a timer that goes off is forgotten and armed again while the token lasts |
| SocketGateway.SchedulePairs | src/presentation/context/planning.gateway.ts:192-208 | map and armed timers stay in step; the timer is due at the expiry or after the longest delay, whichever is sooner |
| SocketGateway.CheckedExactly | src/presentation/context/planning.gateway.ts:141-158 | after its account check a socket is connected and ready exactly when it was connected, the account read was enabled with the token's own version and the token lasts; it then has its timer, and no other socket or timer changes |
| SocketGateway.FiredExactly | src/presentation/context/planning.gateway.ts:192-208 | a timer that goes off drops its socket exactly when the token has expired and is armed again otherwise |
| SocketGateway.DisconnectedExactly | src/presentation/context/planning.gateway.ts:179-181 | the disconnect of a socket takes exactly its own timer away |
| SocketGateway.ResubscribedExactly | src/presentation/context/planning.gateway.ts:265-284 | a subscription keeps the socket exactly when its user can be read, is enabled and has the token's own version |
| SocketGateway.EvictedExactly | src/presentation/context/planning.gateway.ts:224-236 | an eviction drops exactly the sockets that have joined the user's room |
| SocketGateway.AccountChangesExactly | src/application/users/disable-user.use-case.ts:34-57 | an account is disabled by a disable's write, enabled by an enable and moved to the next token version by a revocation, and changes in no other step |
| SocketGateway.RefusedIsDropped | src/presentation/context/planning.gateway.ts:120-177 | in every run a socket refused anywhere in the handshake is disconnected |
| SocketGateway.StepsSucceeded | src/presentation/context/planning.gateway.ts:127-158 | in every run a socket past a stage of the handshake got there by its own steps: token verified, room joined, account read, check passed |
| SocketGateway.ValidClientConnects | src/presentation/context/planning.gateway.ts:120-177 | from every state of every run a client with a valid token of an enabled account gets through, ready and with its timer, and nothing else changes |
| SocketGateway.DisableTakesEffect | src/application/users/disable-user.use-case.ts:34-57 | from every state of every run an account can be disabled, which drops exactly its sockets |
| SocketGateway.RevocationTakesEffect | src/presentation/context/planning.gateway.ts:229-236 | from every state of every run sessions can be revoked: the next token version, and exactly the user's sockets dropped |
| SocketGateway.EveryRunInv | src/presentation/context/planning.gateway.ts:120-236 | every interleaving of handshakes, disables, revokes, evictions, timers and disconnects keeps the account and timer invariants |
| SocketGateway.NoSocketSurvivesDisable | src/application/users/disable-user.use-case.ts:34-57 | after a disable has written and evicted, with no enable since that write, no connected socket of the user is past its account check |
| SocketGateway.NoSocketSurvivesRevocation | src/presentation/context/planning.gateway.ts:218-236 | after a revocation has evicted, no connected socket past the handshake carries an older token |
| SocketGateway.OneTimerPerSocket | src/presentation/context/planning.gateway.ts:179-216 | a connected socket past the handshake has exactly one armed timer, due by its token's expiry; none outlives the disconnect |
| Scanning.ScanRoundTrip | src/domain/ai/prompt-render.ts:7-29 | splitting a text into leftmost matches and literals and printing it back is the identity |
| Scanning.HitsInOrder | src/domain/ai/prompt-render.ts:10-16 | the matches are stretches of the text one after the other, each what the expression takes where it starts |
| Scanning.ReplaceIsRewrite | src/domain/ai/prompt-render.ts:19-29 | an index-driven global replacement is one substitution per piece, with no second look at what was put in |
| PromptTemplates.ParseExact | src/domain/ai/prompt-render.ts:7 | the placeholder matcher takes exactly the braces, white space and name the text starts with |
| PromptTemplates.NamesOfHits | src/domain/ai/prompt-render.ts:10-16 | the names are those inside the matches, in the order these stand in the template |
| PromptTemplates.ListPlaceholders | src/domain/ai/prompt-render.ts:10-16 | every placeholder name once, in the order of their first places in the template |
| PromptTemplates.RenderSubstitutesPieces | src/domain/ai/prompt-render.ts:19-29 | rendering fails exactly on an unknown placeholder and otherwise substitutes each piece of the split once |
| PromptTemplates.AcceptedExactly | src/application/ai/create-prompt.use-case.ts:46-81 | a pair is accepted exactly for a known feature with nothing but nonce in the system template, the required name and otherwise only context and nonce in the user template, and no two braces outside placeholders; otherwise the first check that fails names the rejection |
| PromptTemplates.AcceptedTemplateRenders | src/application/ai/create-prompt.use-case.ts:54-72 | an accepted template cannot fail to render and leaves no stray brace pair |
| PromptTemplates.AcceptedInvocableRenders | src/application/ai/create-prompt.use-case.ts:54-81 | an accepted pair of a user feature renders for every request and holds the whole content |
| PromptTemplates.AcceptedPlanningRenders | src/application/context/planning-prompt.ts:85-101 | an accepted planning pair renders for every job and holds the whole request |
| PromptGuards.MatcherExact | src/domain/ai/prompt-guards.ts:121 | the marker expression, scanned greedily, takes exactly a marker at the front |
| PromptGuards.NeutralizeExact | src/domain/ai/prompt-guards.ts:128-130 | same length, same units, except that the underscore ending any marker becomes a hyphen |
| PromptGuards.NeutralizedIsFree | src/domain/ai/prompt-guards.ts:123-130 | no marker is left anywhere, not even a new one |
| PromptGuards.NeutralizeIdempotent | src/domain/ai/prompt-guards.ts:123-130 | neutralising twice is once, and a text changes exactly when it holds a marker |
| MarkerJoins.HasMarkerExact | src/domain/ai/prompt-guards.ts:121 | reading from the left finds a marker exactly when some stretch is one |
| MarkerJoins.MarkerAcrossBreak | src/application/context/planning-sources.ts:213-226 | two lines show a marker exactly when one of them does or the break lies inside one |
| PromptFences.InvocableTemplate | src/domain/ai/prompt-definitions.ts:122-123 | the template modelled is the one that is stored |
| PromptFences.PlanningTemplate | src/domain/ai/prompt-definitions.ts:125-126 | the template modelled is the one that is stored |
| PromptFences.TwoBlocksRender | src/domain/ai/prompt-definitions.ts:122-126 | the version 3 user templates render to their literals with the values in their places |
| PromptFences.InvocableFences | src/application/ai/generate-suggestion.use-case.ts:131-145 | the rendered suggestion message has the template's four fence marks, in their places, and no other, for every content and context |
| PromptFences.PlanningFences | src/application/context/planning-prompt.ts:85-101 | the planning message has its four marks and those inside the sources text |
| PlanningSources.OrderKeepsGroups | src/application/context/planning-sources.ts:144-159 | bound document, connectors, other documents, each group in its own order |
| PlanningSources.CutIsBest | src/application/context/planning-sources.ts:166-183 | a text within the allowance is untouched, any other is cut at the best boundary of the second half, or hard when there is none |
| PlanningSources.CutFits | src/application/context/planning-sources.ts:161-183 | the result keeps within the allowance exactly when that is at least 1 or nothing was cut |
| PlanningSources.CutOverrunsNothing | src/application/context/planning-sources.ts:166-183 | with an allowance of 0 the ellipsis alone overruns it |
| SingleLines.SingleLineIsWords | src/application/context/planning-sources.ts:185-187 | collapsing and trimming gives the words of the text, in order, with one space between any two |
| PlanningSources.SingleLineIsFree | src/application/context/planning-sources.ts:185-187 | collapsing white space makes no marker |
| PlanningSources.CutIsFree | src/application/context/planning-sources.ts:166-183 | cutting makes no marker |
| SourceBudget.BudgetSources | src/application/context/planning-sources.ts:196-242 | the loop with its running remainder computes the budgeted sources, the drops and the joined text |
| SourceBudget.ShownExactly | src/application/context/planning-sources.ts:205-239 | a candidate with something to show is shown exactly when the text joined before it, the blank line, its header and the lesser of 100 and its own length are within the budget; its excerpt is then cut to what is left, at most 4000; otherwise it counts as dropped |
| SourceBudget.ShownStays | src/application/context/planning-sources.ts:205-239 | what is shown of the first candidates stays as it is whatever follows |
| SourceBudget.HeaderReads | src/application/context/planning-sources.ts:214 | the first line of a block is its bracketed id, its kind and its title |
| SourceBudget.TitleIs | src/application/context/planning-sources.ts:209-212 | a title is the words left after redaction, one space apart, cut to 200 units |
| SourceBudget.TextIs | src/application/context/planning-sources.ts:206-207 | a text is prepared from its first 50000 units: redacted, its tags defused, trimmed |
| SourceBudget.WithinBudget | src/application/context/planning-sources.ts:189-195 | the rendered text never exceeds the budget |
| SourceBudget.SourcesAreCandidates | src/application/context/planning-sources.ts:205-239 | the used sources are an order-preserving selection, numbered from 1; short texts are whole; every cut is flagged |
| SourceBudget.EveryCandidateCounted | src/application/context/planning-sources.ts:205-241 | used, dropped and blank candidates add up to all |
| SourceBudget.AllShownWhole | src/application/context/planning-sources.ts:216-223 | when everything fits uncut nothing is dropped or cut |
| SourceBudget.IdsDiffer | src/application/context/planning-sources.ts:213 | different sources carry different ids |
| SourceBudget.SourcesTextMarkers | src/application/context/planning-sources.ts:205-241 | the sources text shows a marker exactly when a title and its own excerpt are the two halves of one |
| PlanningMessage.PlanningMessageFences | src/application/context/planning-prompt.ts:85-101 | the planning message keeps to its four marks exactly when no title and its excerpt complete a marker |
| PlanningMessage.CandidatesKeepFence | src/application/context/planning-prompt.ts:85-101 | when no candidate's title and prepared text complete a marker, the planning message keeps to its four marks whatever the budget |
| PlanningMessage.JoinBreaksFence | src/application/context/planning-sources.ts:213-226 | a title and excerpt that do complete one |
| CitationScanner.CitationExact | src/application/context/planning-citations.ts:18 | the citation expression takes exactly the texts of its grammar |
| PlanningCitations.IdsOfCitation | src/application/context/planning-citations.ts:29-31 | the ids found in a citation are those of its list, in order |
| PlanningCitations.NumberIdStrips | src/application/context/planning-citations.ts:30 | an id is written with its digits less their leading zeros |
| PlanningCitations.CleanedCitation | src/application/context/planning-citations.ts:28-37 | a citation is dropped exactly when it names no known source, and otherwise becomes, after at most one space, its known ids, each once, in the order of their first places in it |
| PlanningCitations.CleanedIsClean | src/application/context/planning-citations.ts:28-37 | cleaning a cleaned citation changes nothing |
| CitationCleaning.CleanTextIsChunks | src/application/context/planning-citations.ts:28-37 | the cleaned text is its literal text, unchanged and in order, with the kept citations between |
| CitationCleaning.CleaningTwice | src/application/context/planning-citations.ts:28-37 | a second cleaning changes nothing but the literal stretches |
| CitationJoins.ScanFinds | src/application/context/planning-citations.ts:18 | the leftmost scan finds a citation of a kind exactly when one stands anywhere in the text |
| CitationJoins.CleanedOnlyKnown | src/application/context/planning-citations.ts:27-37 | a citation of an unknown source is left exactly when, in the input, a dropped citation stands between literal text that ends in an unfinished citation and literal text that completes it to one |
| CitationJoins.CleanedAlready | src/application/context/planning-citations.ts:28-37 | cleaning leaves a text as it is exactly when it leaves each of its citations |
| CitationJoins.IdempotentExactly | src/application/context/planning-citations.ts:28-37 | cleaning is idempotent exactly when, in the input, no dropped citation stands between literal text that begins a citation and literal text that completes it to one that cleaning changes |
| CitationJoins.CleanIdempotent | src/application/context/planning-citations.ts:28-37 | when every citation names a known source, cleaning is idempotent and none of an unknown source is left |
| CitationJoins.NestedCitation | src/application/context/planning-citations.ts:28-37 | a nested citation whose deletion puts another together |
| CitedSources.CollectCited | src/application/context/planning-citations.ts:57-71 | exactly the given sources some entry names, each once, in the order of the first entries that name them |
| CitedSources.LastWins | src/application/context/planning-citations.ts:57 | of several given sources with one id the last is cited |
| CitedSources.CitedExactly | src/application/context/planning-citations.ts:16-71 | an id is cited exactly when a given source has it and some entry is a string that, trimmed, is one of the id expression for it |
| CitedSources.NormalizeOfId | src/application/context/planning-citations.ts:21-25 | an id in the cited list is read as itself |
| CitedSources.RevalidatingIsIdentity | src/application/context/planning-citations.ts:53-71 | validating the validated list gives it back |
| CacheKeys.ReadOfQuoted | src/application/ai/suggestion-cache-key.ts:25-37 | reading a JSON string undoes writing it, for every text of code units (section 7 of RFC 8259) |
| CacheKeys.EncodeWellFormed | src/application/ai/suggestion-cache-key.ts:25-37 | lone surrogates are escaped, so the encoding has none whatever the fields have |
| Utf8.EncodedInjective | src/application/ai/suggestion-cache-key.ts:26-38 | the bytes the digest is taken of determine the text when every surrogate is paired |
| Utf8.UnitExample | src/application/ai/suggestion-cache-key.ts:26-38 | units of one, two and three bytes are encoded as in the examples of section 7 of RFC 3629 |
| Utf8.PairExample | src/application/ai/suggestion-cache-key.ts:26-38 | so is a surrogate pair |
| Utf8.LoneSurrogates | src/application/ai/suggestion-cache-key.ts:26-38 | surrogates without their partner become replacement characters |
| CacheKeys.KeyInjective | src/application/ai/suggestion-cache-key.ts:18-39 | two requests share a key exactly when all six fields agree, the digest over the UTF-8 bytes taken as free of collisions |
| SuggestionCache.EveryRunInv | src/application/ai/generate-suggestion.use-case.ts:154-203 | every interleaving of requests and expiries keeps the cache to checked outputs of the same key |
| SuggestionCache.ServedFromEarlier | src/application/ai/generate-suggestion.use-case.ts:154-215 | a suggestion served from the cache was generated, checked and stored before the lookup for the same six fields, and passed this request's own check |
| SuggestionCache.ServedExactly | src/application/ai/generate-suggestion.use-case.ts:154-186 | in every run a lookup finds the output last stored for the same six fields and not expired since, and serves it exactly when it passes the request's own check; otherwise the generator is asked |
| SuggestionCache.ExecutionIsSolo | src/application/ai/generate-suggestion.use-case.ts:164-215 | the use case alone is the run of its steps |
| SuggestionCache.AcceptableExactly | src/application/ai/generate-suggestion.use-case.ts:248-260 | an output passes exactly when something of it is not white space, it has at most 100000 units and the leak check finds nothing |
| SuggestionCache.GenerateSuggestion.Execute | src/application/ai/generate-suggestion.use-case.ts:104-215 | a hit makes no generator call; a miss or a failing entry generates, checks, then stores; failures store and create nothing |
| LlmGateway.Attempt | src/infrastructure/ai/openrouter.gateway.ts:228-356 | the reservation comes first and its error leaves unchanged |
| LlmGateway.CallWithRetries | src/infrastructure/ai/openrouter.gateway.ts:179-198 | the retry loop ends and does what the series of attempts does, on the shared budget |
| LlmGateway.CompleteRequest | src/infrastructure/ai/openrouter.gateway.ts:107-161 | one series, and one repair series out of the same budget for a reply that is no JSON |
| LlmGateway.AttemptsAre | src/infrastructure/ai/openrouter.gateway.ts:179-222 | a series calls at most once more than the retries it spends |
| LlmGateway.RepliesAreClassified | src/infrastructure/ai/openrouter.gateway.ts:235-421 | each kind of reply has its own error: cut off at the length, filtered, rate-limited with its header's wait, unavailable for lost connections, timeout status and server errors, the provider's otherwise; retried are only lost connections, rate limits and server errors |
| LlmGateway.SeriesGoesOn | src/infrastructure/ai/openrouter.gateway.ts:179-222 | a series goes on after a call exactly when a retry is left, the failure asks for a wait (a rate limit one of at most ten seconds, a server error or lost connection half a second and a jitter) and a second remains behind it |
| LlmGateway.RepairedExactly | src/infrastructure/ai/openrouter.gateway.ts:128-146 | a second series is made exactly when the first ended with a reply that is no JSON and time is left |
| LlmGateway.CompleteEnds | src/infrastructure/ai/openrouter.gateway.ts:107-161 | a call succeeds only with a last reply that completed and is JSON, with the tokens of all completed replies, and fails with its last reply's error, or the provider's when that reply is no JSON |
| LlmGateway.CompleteIsMetered | src/infrastructure/ai/openrouter.gateway.ts:107-233 | at most 2 + maxRetries calls, a reservation right before each, waits that leave a second, a denied reservation ends the call with its own error, no internal failure escapes |
| LlmGateway.BoundIsMet | src/infrastructure/ai/openrouter.gateway.ts:107-161 | 2 + maxRetries calls can happen |
| MeteredCalls.CallsOwnTheirGrants | src/infrastructure/ai/gateway-suggestion-generator.ts:44-56 | however any number of calls interleave, each provider call owns a unit granted to its user and no two share one |
| MeteredCalls.ProviderCallsWithinCaps | src/infrastructure/ai/gateway-suggestion-generator.ts:44-56 | in every such run the provider calls on reservations of a day keep to the user cap for each user and to the global cap in all, when no reservation is more than an hour under way |
| MeteredCalls.CapIsReached | src/infrastructure/ai/gateway-suggestion-generator.ts:44-56 | such runs exist and reach the cap: as many calls at once as the user's cap allows each get a unit and call the provider |
| AiQuota.ExpiryIsTheDays | src/infrastructure/ai/redis-ai-quota.ts:99-106 | every moment of a day computes the same expiry, next midnight plus an hour |
| AiQuota.WaitReachesMidnight | src/infrastructure/ai/redis-ai-quota.ts:48-55 | the wait reaches the next UTC midnight and is less than a second long of it |
| AiQuota.RedisAiQuota.RunScript | src/infrastructure/ai/redis-ai-quota.ts:99-132 | an unreachable store refuses; otherwise the script's answer, the wait on a spent limit, and a count only for an allowed reservation |
| AiQuota.EveryHistoryInv | src/infrastructure/ai/redis-ai-quota.ts:27-40 | in every run each counter keeps its cap, carries its day's expiry, and is the number of grants until then |
| AiQuota.AllowedExactly | src/infrastructure/ai/redis-ai-quota.ts:27-40 | in every history, until a day's counters go, a call is allowed exactly when its user and all users together have units left that day; an allowed reservation takes one unit, a check or a refusal changes nothing |
| AiQuota.CapsHoldExactly | src/infrastructure/ai/redis-ai-quota.ts:99-119 | for every user and day and at all times both caps hold in every run whose reservations reach the store within a given time of reading the clock, exactly when that time is at most an hour |
| AiQuota.OutlivesItsDay | src/infrastructure/ai/redis-ai-quota.ts:15-16 | no counter goes within its day, nor in the hour after |
| AiQuota.GlobalIsSum | src/infrastructure/ai/redis-ai-quota.ts:27-40 | at every time a day's global counter is the sum of its user counters |
| Gamification.Ledger.AwardOnce | src/infrastructure/persistence/gamification/milestone.typeorm.repository.ts:22-91 | inserts and pays once per user, document and type; otherwise changes nothing |
| Gamification.Ledger.IncrementAtomic | src/infrastructure/persistence/gamification/mission-progress.typeorm.repository.ts:21-120 | counts an event unless complete, and pays in the step that completes |
| Gamification.XpIsConserved | src/infrastructure/persistence/gamification/milestone.typeorm.repository.ts:65-78 | a user's XP is what milestones and completed missions paid, and the level starts at 1 and rises by one every 100 points |
| Gamification.PaysOnce | src/infrastructure/persistence/gamification/milestone.typeorm.repository.ts:37-58 | at most one row per milestone key and per user and mission |
| Gamification.FirstAwardPays | src/infrastructure/persistence/gamification/milestone.typeorm.repository.ts:37-58 | in every run the row of a milestone key is that of the first award with the key that came for a registered user, and there is none without one |
| Gamification.ProgressCountsEvents | src/infrastructure/persistence/gamification/mission-progress.typeorm.repository.ts:45-69 | progress is the number of events, stopped at the target; complete exactly when that many came |
| Gamification.ProgressWithinTarget | src/infrastructure/persistence/gamification/mission-progress.typeorm.repository.ts:57-69 | progress never passes the target exactly for targets of at least 1 |
| LedgerTransactions.CommitIsAtomic | src/infrastructure/persistence/gamification/mission-progress.typeorm.repository.ts:33-110 | what a transaction has written statement by statement is, at its commit, what it does at once; who is told of a milestone or a completed mission is who brings it |
| LedgerTransactions.CommitSpares | src/infrastructure/persistence/gamification/mission-progress.typeorm.repository.ts:45-53 | a commit leaves everything that another open transaction has read as it was |
| LedgerTransactions.InterleavingIsSerial | src/infrastructure/persistence/gamification/milestone.typeorm.repository.ts:30-91 | every interleaving of statements, commits and roll-backs commits what the transactions do one by one in commit order |
| LedgerTransactions.GoesThrough | src/infrastructure/persistence/gamification/milestone.typeorm.repository.ts:30-91 | from every state of every run a transaction whose key and user row no other one holds can run to its commit, and has then done at once what it is for |
| LedgerTransactions.ConcurrentLedgerIsConserved | src/infrastructure/persistence/gamification/milestone.typeorm.repository.ts:37-78 | in every such interleaving XP is conserved, no key has two rows, and progress is the number of committed events stopped at the target |
| DocumentVersions.VersionCollection.MaxVersion | src/infrastructure/persistence/document-versions/document-version.mongoose.repository.ts:121-128 | the greatest version of the document, or none |
| DocumentVersions.VersionCollection.CreateWithRetry | src/infrastructure/persistence/document-versions/document-version.mongoose.repository.ts:47-74 | takes the next number; fails exactly when other saves commit in both of its windows |
| DocumentVersions.VersionsAreContiguous | src/infrastructure/persistence/document-versions/document-version.mongoose.repository.ts:35-74 | in every interleaving of saves a document's versions are 1 to n in commit order |
| DocumentVersions.RefusedExactly | src/infrastructure/persistence/document-versions/document-version.mongoose.repository.ts:55-73 | in every interleaving an insert is refused exactly when another save of the document committed since the last read; the first refusal retries, the second fails |
| DocumentVersions.FailureNeedsTwoOthers | src/infrastructure/persistence/document-versions/document-version.mongoose.repository.ts:66-73 | a duplicate-key failure needs at least two other saves committed during the save |
| DocumentVersions.TriesTwice | src/infrastructure/persistence/document-versions/document-version.mongoose.repository.ts:60-73 | in every interleaving a save is refused twice at most, fails exactly then, and saves after one refusal or none |
| DocumentVersions.SaveGoesThrough | src/infrastructure/persistence/document-versions/document-version.mongoose.repository.ts:47-58 | from every state of every run a save that is alone saves the next version |
| Sections.AcceptsPermutations | src/application/documents/reorder-sections.use-case.ts:31-42 | the set-based check accepts exactly the permutations of the document's sections |
| Sections.SectionTable.Create | src/application/documents/create-section.use-case.ts:38-48 | appends after the current maximum, or at 0 |
| Sections.SectionTable.Reorder | src/application/documents/reorder-sections.use-case.ts:27-45 | rejects without a change, or gives every id its index |
| Sections.SectionTable.ApplyToDocument | src/infrastructure/persistence/templates/document-template.typeorm.repository.ts:43-72 | appends the template's sections with rising orders |
| Sections.SectionTable.ReplaceAll | src/infrastructure/persistence/documents/section.typeorm.repository.ts:94-136 | replaces the document's rows by the snapshot's |
| Sections.ReorderedRows | src/infrastructure/persistence/documents/section.typeorm.repository.ts:85-92 | the ids get their indices and nothing else changes |
| SectionOrder.ReorderGivesRequested | src/application/documents/reorder-sections.use-case.ts:44-45 | after an accepted reorder the document lists exactly the requested ids; other documents keep their rows |
| SectionOrder.CreatedIsLast | src/application/documents/create-section.use-case.ts:38-48 | a created section is listed last, after all that were listed before |
| SectionOrder.TemplateIsAppended | src/infrastructure/persistence/templates/document-template.typeorm.repository.ts:43-72 | a template's sections are listed after all that were there, in the template's order |
| SectionOrder.OrdersStayDistinct | src/infrastructure/persistence/documents/section.typeorm.repository.ts:23-136 | in every run of operations, one at a time, orders stay pairwise distinct, in rows and in saved versions |
| SnapshotRestore.SaveRestoreSave | src/application/document-versions/restore-version.use-case.ts:38-50 | save, restore, save gives the same snapshot for certain exactly when entries sharing an order are equal |
| SnapshotRestore.DistinctComesBack | src/application/document-versions/save-version.use-case.ts:41-56 | with distinct orders the snapshot always comes back |
| CalendarMonths.AddGivesADate | src/domain/leads/lead-score.ts:31-38 | the computed day is a day of its month, whatever the months |
| CalendarMonths.AddedTextIsADate | src/domain/leads/lead-score.ts:28-39 | the text returned is a date exactly when its year has four digits; from September 275760 on the code throws |
| CalendarMonths.AddIsMonthsLater | src/domain/leads/lead-score.ts:31-39 | the code adds the months that are meant exactly from year 100 on, because years 0 to 99 are read as 1900s |
| CalendarMonths.MonotoneInDate | src/domain/leads/lead-score.ts:30-39 | a later date stays later or level for all months exactly when both years are on the same side of 100 or the earlier date still is the earlier as one of the 1900s |
| CalendarMonths.CenturyTurnsBack | src/domain/leads/lead-score.ts:32-33 | from the last day of year 99 and the first of year 100 three months on, the earlier date lands later |
| CalendarMonths.StrictInMonths | src/domain/leads/lead-score.ts:30-39 | adding more months lands strictly later |
| CalendarMonths.TwoStepsNotLater | src/domain/leads/lead-score.ts:30-39 | adding in two steps never lands later than adding at once |
| CalendarMonths.TextOrderIsDateOrder | src/domain/leads/lead-score.ts:28 | date strings of four-digit years compare as the dates do |
| CalendarMonths.TextReadsBack | src/domain/leads/lead-score.ts:28 | a date string can be read back: year, month and day with a four-digit year, otherwise sign, six-digit year and month |
| LeadScore.ComputeLeadScore | src/domain/leads/lead-score.ts:44-66 | the score is the sum of the breakdown, which lists the rules earned |
| LeadScore.ListedIsEarned | src/domain/leads/lead-score.ts:50-64 | an entry is listed exactly when its rule is earned, with the rule's points |
| LeadScore.ListedByFacts | src/domain/leads/lead-score.ts:50-64 | each rule is listed with its points exactly for the fact it is about |
| LeadScore.ListedInPlace | src/domain/leads/lead-score.ts:50-64 | the breakdown lists each rule once at most, in the order the rules are looked at |
| LeadScore.ScoreOfFacts | src/domain/leads/lead-score.ts:44-66 | three points for a due date less than three months away, two up to six months, two or one for the persona, two for the cited tool, three for a connected one, three for the paywall |
| LeadScore.WindowsExactly | src/domain/leads/lead-score.ts:52-57 | the windows are those that are meant, for every due date, exactly when today is from year 100 on and six months later still has four digits |
| LeadScore.WindowsAreAdjacent | src/domain/leads/lead-score.ts:52-57 | the comparisons put a date into the first window exactly from today to before three months on, into the second exactly from there to six months on, and no other date into either |
| LeadScore.NearerScoresNoLower | src/domain/leads/lead-score.ts:52-66 | a nearer due date that is not past never lowers the score |
| LeadScore.ScoreRange | src/domain/leads/lead-score.ts:58-65 | at most 13, and 13 is reached |
| LeadScore.TiersFollowScores | src/domain/leads/lead-score.ts:41-42 | tiers change at 4 and 8 and never fall as the score rises |

## Left out

- Controllers, DTOs, guards, modules, validation of settings, logging and the clients of the databases and brokers: wiring
  around the modelled steps.
- `parseContextResultChunk`, the retry relay of the consumer and its delays: a handled message is a parsed chunk, and a
  transient failure is a requeue; with a requeue the context claim of the winner is not made.
- Several consumers of one queue: the order of a job's chunks is proved for one, as the source documents.
- Liveness after a crash: a job whose worker died after its claim can stay in flight; only safety is proved.
- Deletion of users, jobs, documents and lists of prompts by an operator; a section delete is modelled.
- The secret expressions of `redactSecrets`, `prepareUntrustedValue`, the leak check's text comparison, and the checks that
  come before the cache lookup (ownership, prompt, availability, length, rendering errors).
- `connectorEntries`, `sectionCandidates` and retrieval: candidates are given.
- The suggestions and the outline of a validated plan are cleaned by the modelled `cleanText`; trimming them and dropping
  empty ones is not modelled.
- ContextUseCases.HandleChunk: runs alone in its contract; what interleaving does to it is proved on the program counters
  of `JobProtocol`, because a method of Dafny has no concurrent callers.
- LlmGateway.CompleteRequest: the time a provider call itself takes is not modelled beyond the clock read after it; the
  abort signal is the provider's answer that it timed out.
- SourceBudget.BudgetSources: takes the text functions as an argument (`Wording`), so that its facts hold for any; the real
  ones are `SourceBudget.Words`.
- SuggestionCache.GenerateSuggestion.Execute: the check and the key function are an argument (`World`); the real pair is
  `SuggestionCache.Real`, and `SuggestionCache.ServedFromEarlier` is stated for it.
- Sections.SectionTable.Reorder: works on a map from ids to rows instead of locked database rows; sections created during a
  restore or a reorder race with it in the source too and are not modelled.
- Gamification.Ledger.IncrementAtomic: one step; its statements interleave with those of other transactions in
  `LedgerTransactions`. Deadlocks, which the database ends by a roll-back, are roll-backs there.
- DocumentVersions.FailureNeedsTwoOthers: two other saves alone do not make a save fail, they have to commit in its two
  windows; that exact condition is `DocumentVersions.RefusedExactly`, per try.
- CitationJoins.CleanIdempotent: a sufficient condition; the exact one is `CitationJoins.IdempotentExactly`.
- CalendarMonths.StrictInMonths: for dates from year 0 on and months that are not negative, as callers pass them; the same
  goes for the other facts about added months.
- Full-text ranking, migrations, seeds, lead lists, counters, onboarding, audit, login limits: state-free or easy beside the
  above.
