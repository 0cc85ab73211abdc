# AegisRAG: verified models of its stateful cores

AegisRAG is a multi-tenant retrieval-augmented agent service. This project models the
parts of it whose guarantees are properties of whole runs rather than of one branch, and
proves those guarantees for every input, every environment and every interleaving:

- **Agent-run persistence** (`RunProtocol.dfy`, `RunCourse.dfy`, `RunPersistence.dfy`): a run's row is created and committed, the
  agent runs, and one terminal row is committed, while any await may fail, cancel itself, be
  cancelled by the caller or outlive its deadline.
- **Event stream** (`EventStream.dfy`): the 64-slot queue between a run and its consumer.
- **Stream decoder** (`SseLines.dfy`, `SseEvents.dfy`, `SseBlocks.dfy`): the incremental line splitter and event
  decoder, against the printer of the same events. Line breaks and fields follow sections 9.2.5
  and 9.2.6 of the WHATWG HTML Living Standard.
- **Usage ledger** (`Pricing.dfy`, `Ledger.dfy`, `Accounting.dfy`, `AccountingRows.dfy`,
  `AccountingStream.dfy`, `LedgerMetrics.dfy`): price resolution and rounding, reserve and settle transactions, the
  forecast before a call, the streaming wrapper that settles it, and the monthly metrics.
- **Governed agent runtime** (`FinalAnswer.dfy`, `ToolEvents.dfy`, `Runtime.dfy`,
  `AgentCourse.dfy`, `AgentCauses.dfy`, `AgentLoop.dfy`): the decide/execute/validate loop with its
  budgets, repeat guard, tool events and evidence-checked answers.
- **Tool dispatch** (`RateLimiter.dfy`, `ToolDispatch.dfy`): the sliding-window limiter, the gate
  pipeline, one-shot approval grants and the revocable dispatch state.
- **Sessions** (`Revocation.dfy`, `RefreshRotation.dfy`, `LoginService.dfy`): the revocation store
  and refresh-token rotation. `exp` and `jti` are those of sections 4.1.4 and 4.1.7 of RFC 7519,
  and refresh is that of section 6 of RFC 6749.

## How it is modelled

Code that updates objects step by step is a class or a method with loops, proved against a
value-level specification function. What such a function promises is then said without it: which
ending has which cause, what a row or a block of lines says, which tokens are still good.
Concurrency is a state machine: `Next(s, step)` takes one
uninterrupted stretch of code between two suspension points, and a run is `Run(s, steps)` for an
arbitrary list of steps, so every theorem about `Run` covers all interleavings. Fields said to
record the run are read by no step. Everything outside the code's control is a parameter: clock
readings, the outcome of each await, the decisions of the stepper, fresh identifiers.

Money is exact: prices are real numbers, amounts are integer nano-units. Time is an
integer (microseconds, or the limiter's clock). Hashes and signatures are injective, so actions
and argument digests are compared by their canonical text.

## What the properties turned out to be

Some promises hold only under a condition; the condition and an input on which the promise fails
without it are both stated.

- The line splitter is insensitive to how the body is cut if and only if every line fits the event
  byte limit and no line ended by a CR fills it exactly; then a chunk boundary after that CR makes
  the held text one byte too long (`SseLines.CutsAreIrrelevantExactly`,
  `SseLines.WholeAcceptedAtLimit`, `SseLines.CutRefusedAtLimit`).
- A stream cut inside a frame is reported as truncated exactly when the `event` field name has
  fully arrived (`SseEvents.CutFrame`); before that it ends silently.
- A started tool handler leads to exactly one record attempt if and only if it stopped in a way the
  registry handles, or its output failed validation with one of the two caught errors, or it passed,
  dumped to a mapping, and no prompt projection escaped or spoilt that mapping. A handler that cannot
  be called or raises no `Exception`, a validator that raises anything else, a dump that raises, a
  dump that is not a mapping, a projection that raises no `Exception`, and one that leaves keys
  behind that cannot be sorted each leave no record (`ToolDispatch.OneRecordPerStart`,
  `ToolDispatch.UnrecordableEndings` and the lemma of each branch).
- Revoking a session until its end stops every refresh of it except exactly those that can still
  finish at that moment: past the family check with a live token and a session not yet over, past
  the session-expiry check with a live token, or already past the rotation
  (`RefreshRotation.RevokedSessionStaysRevoked`,
  `RefreshRotation.RevocationDoesNotStopCheckedRefresh`).
- `revoke` overwrites a later expiry by an earlier one. Every revocation of a token is kept until the
  expiry it named if and only if no `revoke` of it shortens an expiry still ahead
  (`Revocation.KeptExactlyUnlessShortened`, `Revocation.RevokeCanShorten`); `revoke_family` keeps the
  later one and needs no such condition.
- The monthly budget can be exceeded (`Ledger.OneCallCostsItsAmount`), by at most what settled calls
  exceeded their own reservations (`Ledger.BudgetHoldsUpToOverruns`). It holds throughout a run if
  and only if each settlement overruns by no more than the headroom it finds
  (`Ledger.WithinExactlyWhenSettlementsFit`), and always when calls stay within their forecast
  (`Accounting.BudgetNeverExceeded`).
- A run reported as a storage failure can still have its terminal row stored
  (`RunPersistence.LateResultIsStored`). When a terminal row is stored and the caller requested no
  cancellation, the run is reported as a storage failure if and only if that commit returned after
  its deadline (`RunPersistence.AgentRunService.Run`).

## Model

| member | source | states |
|---|---|---|
| RunProtocol.OneTerminalCommit | packages/agent/service.py:47-60 | in any call sequence the protocol allows, a second terminal commit is never entered, acknowledged or not |
| RunProtocol.NoRetryOfUncertainCommit | packages/agent/service.py:275-298 | after a commit whose return was not seen, nothing is written or committed any more |
| RunProtocol.DurableByStage | packages/agent/service.py:421-441 | the acknowledged rows are none, the running row, or the running row and one terminal row, as the stage of the protocol says |
| RunProtocol.RankGrows | packages/agent/service.py:390-447 | the protocol only moves forward through its stages, at every point of every call sequence |
| RunPersistence.AgentRunService.PersistPhase | packages/agent/service.py:390-447 | a phase ends, moves the stage and counts requests exactly as the course of a run says, and keeps its calls within the protocol |
| RunPersistence.AgentRunService.CommitPhase | packages/agent/service.py:424-441 | the commit half of a phase: exactly the course, with the flags moved before anything else is awaited |
| RunPersistence.AgentRunService.Rollback | packages/agent/service.py:604-623 | rollback never moves the protocol; true means no write is pending; it is interrupted only by a new request |
| RunPersistence.AgentRunService.RunPermitted | packages/agent/service.py:190-327 | for a caller who may run agents the run is exactly its course, with its repository calls legal |
| RunPersistence.AgentRunService.Audit | packages/agent/service.py:625-680 | an audit interrupts the run only when the caller requested cancellation |
| RunPersistence.AgentRunService.FinishCancellation | packages/agent/service.py:463-525 | it answers true exactly when the stopped row was committed and acknowledged in its phase, after discarding pending writes |
| RunPersistence.AgentRunService.Execute | packages/agent/service.py:196-274 | the guarded body is exactly the course, for every ending of the runtime and of storage |
| RunPersistence.AgentRunService.OnCancelled | packages/agent/service.py:275-298 | without a new request from the caller, cancellation is re-raised only with the stopped row durable, otherwise it is a storage failure; if storage works the stop is recorded |
| RunPersistence.AgentRunService.Run | packages/agent/service.py:151-327 | for every environment the run is exactly its course and its repository calls follow the protocol; a response, a runtime failure and a cancellation without a request each say how the runtime ended and which rows are durable, a storage failure leaves no terminal row unless its commit returned late, and with a terminal row stored and no new request it is reported exactly then |
| RunPersistence.AgentRunService.Produce | packages/agent/service.py:342-358 | a final event implies the result row is durable and nothing overflowed, a runtime error that the runtime raised and the failed row is stored, a cancelled error that it cancelled itself and the stopped row is stored; a storage error is announced exactly when a stored terminal row was committed late; no terminal event only when the consumer left |
| RunPersistence.RunWithOneFault | packages/agent/service.py:151-327 | running the service with any one await of twelve going wrong ends, and leaves stored, what the table of faults says |
| RunCourse.FaultTable | packages/agent/service.py:151-327 | for each of the twelve awaits and each way it can go wrong (left by the caller, cancelled by itself, raising, returning late), what the caller is told and which rows are stored |
| RunCourse.ExecutingLaw | packages/agent/service.py:196-274 | the terminal row is the one for how the runtime ended; a result is returned exactly after it ended well, a runtime failure only after it raised, a cancellation without a request only when it cancelled itself |
| RunCourse.TruthTold | packages/agent/service.py:151-327 | the same for the whole run and its handlers, in every environment |
| RunPersistence.LateResultIsStored | packages/agent/service.py:421-447 | a run, calm but for the late return of its terminal commit, that is reported as a storage failure with its result stored |
| EventStream.AgentStreamSink.Put | packages/agent/streaming.py:45-55 | a closed sink ignores the event, a full one remembers the loss, otherwise it is numbered and queued |
| EventStream.AgentStreamSink.Terminate | packages/agent/streaming.py:99-110 | after an overflow a finished run is announced as an error, and the terminal carries the next number |
| EventStream.AgentStreamSink.Enqueue | packages/agent/streaming.py:99-110 | the awaited put adds the terminal event and counts it, as the publishing step of every interleaving does |
| EventStream.AgentStreamSink.Get | packages/agent/service.py:362-376 | the get takes the oldest event, as the taking step of every interleaving does |
| EventStream.RunKeepsInv | packages/agent/streaming.py:31-110 | every interleaving keeps numbering, order, the place of the terminal and the record of losses |
| EventStream.DeliveredInOrder | packages/agent/streaming.py:85-97 | in every interleaving delivered events are numbered 0, 1, 2, ... and only the last can be terminal |
| EventStream.FinalMeansComplete | packages/agent/streaming.py:99-104 | a consumer that received final has received every progress event emitted, in order |
| EventStream.OverflowIsNeverSuccess | packages/agent/streaming.py:45-55 | once anything overflowed no final event is ever delivered |
| EventStream.QueueKeeps64 | packages/agent/streaming.py:31-55 | the queue keeps 64 unread events and loses exactly those beyond |
| EventStream.AnnouncedAsEnded | packages/agent/streaming.py:99-110 | a finished run is announced with its response unless something overflowed, a failed one with its code |
| EventStream.TerminalIsDelivered | packages/agent/service.py:362-380 | once the terminal is announced, a consumer that keeps reading receives it as its last event |
| SseLines.SplitLines | evaluation/mixed_load.py:305-333 | for every way of cutting the body it succeeds exactly on accepted bodies and then yields the lines of the whole text; when it fails it has yielded a prefix of them |
| SseLines.TakeLines | evaluation/mixed_load.py:319-326 | the inner loop takes exactly the lines whose end is certain and leaves the held text |
| SseLines.Incremental | evaluation/mixed_load.py:318-326 | only the held text matters for what follows: splitting piece by piece is splitting the whole |
| SseLines.CompleteThenHeld | evaluation/mixed_load.py:318-333 | the certain lines and the lines of the held text are the lines of the text |
| SseLines.CutsAreIrrelevantExactly | evaluation/mixed_load.py:305-333 | every cutting of a body within the cap is accepted if and only if every line fits and no line ended by CR or CRLF fills the limit |
| SseLines.CutsAreIrrelevant | evaluation/mixed_load.py:327-328 | in particular, with every line below the limit and the body within its cap no cutting is refused |
| SseLines.WholeAcceptedAtLimit | evaluation/mixed_load.py:319-328 | for every line of exactly the limit, the body of it and CRLF is accepted in one read |
| SseLines.CutRefusedAtLimit | evaluation/mixed_load.py:319-328 | the same body is refused when the reads part the CR from the LF |
| SseEvents.ParseLines | evaluation/mixed_load.py:268-302 | the decoder loop, with its pending name, values and byte count, yields what the recursive meaning of its lines says, with the same error |
| SseEvents.ReadEvents | evaluation/mixed_load.py:268-302 | on an accepted body the events and error depend on the text alone; a refused body always ends in an error |
| SseBlocks.ParseIsMeaning | evaluation/mixed_load.py:268-302 | on every list of lines the line-by-line decoder is the block-by-block meaning: cut at blank lines, each block read on its own |
| SseBlocks.BlockMeans | evaluation/mixed_load.py:278-300 | a block is too long exactly when its bytes and lines exceed the limit, yields nothing exactly when it has no data line, and else yields the one payload that its data lines joined by line feeds parse to, invalid exactly when that does not parse or names another event than its last event line |
| SseBlocks.TailMeans | evaluation/mixed_load.py:301-302 | lines after the last blank one yield nothing, and are truncated exactly when a data line is among them or their last event line names something other than message, unless they are too long or cut off |
| SseBlocks.FieldSyntax | evaluation/mixed_load.py:278-300 | a field is its name before the first colon and its value with one leading space removed; a line without a colon is a field without value |
| SseBlocks.IgnoredLinesDoNotMatter | evaluation/mixed_load.py:278-300 | comments and unknown fields can be dropped from a block that fits without changing its meaning |
| SseBlocks.BomIsDropped | evaluation/mixed_load.py:274-280 | a byte order mark before the first line changes nothing |
| SseEvents.WireThen | packages/agent/streaming.py:113-116 | printed frames decode to exactly their events whatever text follows, which then decodes on its own |
| SseEvents.RoundTrip | packages/agent/streaming.py:113-116 | every cutting of concatenated frames is accepted and decodes to exactly the printed events, in order |
| SseEvents.FeedFrame | evaluation/mixed_load.py:278-300 | the four lines of a frame take the decoder from rest to rest and yield that frame's event |
| SseEvents.CutFrame | evaluation/mixed_load.py:301-302 | a frame cut anywhere yields nothing, and is reported as truncated exactly when its event field name has arrived |
| SseEvents.CutStream | evaluation/mixed_load.py:268-302 | a stream cut anywhere yields exactly the events of the frames that arrived in full |
| SseEvents.CutOffIsAnError | evaluation/mixed_load.py:305-333 | a failed line source always surfaces as an error |
| Pricing.Ceiling | packages/billing/dto.py:13-14 | the smallest integer at or above the exact quotient |
| Pricing.CostNanos | packages/billing/dto.py:49-56 | the exact cost of a usage in nano-units, rounded up to the next integer and by less than one |
| Pricing.CostMonotone | packages/billing/dto.py:49-56 | more tokens never cost less, after rounding as before it |
| Pricing.UnambiguousVersions | packages/billing/dto.py:64-76 | the validator accepts exactly the catalogs in which no two entries of one offer share a version name or a start |
| Pricing.ResolveIsBest | packages/billing/dto.py:78-102 | an entry is found whenever one is eligible, and nothing eligible outranks it |
| Pricing.BestIsUnique | packages/billing/dto.py:64-102 | in a validated catalog at most one entry is best |
| Pricing.ResolveIsStable | packages/billing/dto.py:64-102 | the choice does not depend on the order of entries nor on entries that start later |
| Ledger.CostRepository.Reserve | packages/billing/repository.py:26-68 | the transaction either moves the hold and inserts the row or leaves everything unchanged |
| Ledger.CostRepository.Settle | packages/billing/repository.py:70-128 | it claims the reserved row if there is one and moves money only with a known amount |
| Ledger.Claim | packages/billing/repository.py:84-92 | the claimed row is reserved and has that id and tenant, and there is none exactly when no row qualifies |
| Ledger.ReserveSays | packages/billing/repository.py:26-68 | a reservation goes through exactly when its id is new and the account with it stays within the limit, if there is one; the account then holds that much more and no other account moves |
| Ledger.SettleSays | packages/billing/repository.py:70-128 | a settlement writes the one reserved row of its call and no other; its account trades the hold for the amount exactly when there is one |
| Ledger.AccountsMatchCharges | packages/billing/repository.py:26-128 | after any interleaving reserved is the sum of holds without an amount, spent the sum of amounts, and neither is negative |
| Ledger.SettledIsFinal | packages/billing/repository.py:84-128 | a settled row never changes again |
| Ledger.DuplicateSettlementMovesNothing | packages/billing/repository.py:84-128 | after one settlement went through, every later one of the same call changes nothing, whatever came in between |
| Ledger.IdsStayUnique | packages/billing/repository.py:26-68 | no two rows ever share an id |
| Ledger.BudgetHoldsUpToOverruns | packages/billing/repository.py:48-66 | spent plus reserved never exceeds the limit by more than the settled calls exceeded their reservations |
| Ledger.WithinExactlyWhenSettlementsFit | packages/billing/repository.py:48-127 | a run stays within the limit at every point if and only if each settlement overruns its reservation by no more than the headroom it finds |
| Ledger.OneCallCostsItsAmount | packages/billing/repository.py:115-127 | one call alone leaves its account at exactly what it cost, also above the limit it was admitted under |
| Ledger.NoOverrun | packages/billing/repository.py:115-127 | without overruns the limit itself holds |
| Accounting.AfterIsOk | packages/billing/service.py:78-205 | every row a run leaves belongs to a ticket, with its account, time and forecast; a reserved row is the one its begin wrote; an amount comes only with a known usage |
| Accounting.SettledByOwnFinish | packages/billing/service.py:145-205 | every settled row is the row its begin wrote, settled with what one finish of its own call sent for its own ticket; what that is, AccountingRows.SettledRowSays spells out |
| AccountingRows.SettledRowSays | packages/billing/service.py:145-205 | every settled row of every run says, in plain terms, what one finish of that call reported: its outcome, its token counts when they are known, and as amount the ceiling of the exact cost at the one price in force, or none when usage or price is unknown |
| AccountingRows.MetadataLaw | packages/billing/service.py:145-205 | for each kind of provider metadata, which counts, price version and amount a settlement carries |
| AccountingRows.PriceIsTheOne | packages/billing/dto.py:78-102 | a price is found exactly when an entry of that provider, model and currency is in force, and it is one for the very provider version if there is such, and among entries of a kind the one that started last |
| AccountingRows.CostIsPlain | packages/billing/dto.py:49-56 | the cost is the least integer not below the tokens times their prices |
| AccountingRows.HoldSays | packages/billing/service.py:78-143 | without a budget nothing is held; with one, begin fails exactly without a price or an output cap, and else holds the cost of the bytes sent, the allowance of 256, the tool schema and the output cap, but at least the minimum |
| Accounting.AmountWithinReservation | packages/billing/service.py:81-115 | a call within its forecast and at its reserved price costs no more than its hold |
| Accounting.BudgetNeverExceeded | packages/billing/service.py:78-205 | if every call stays within its forecast and settles at its reserved price, no account ever exceeds the budget, in any interleaving |
| AccountingStream.Send | packages/billing/provider.py:61-76 | one settlement attempt changes the row exactly when it commits and the row is still reserved |
| AccountingStream.Stream | packages/billing/provider.py:30-59 | for every chunk sequence and stop point the charge leaves reserved at most once, and exactly once when the last attempt commits: with the first final chunk's usage if that went through, else as unknown usage |
| AccountingStream.FirstFinalDecides | packages/billing/provider.py:30-59 | when the first final chunk settles, the row says what its metadata says, whatever follows |
| AccountingStream.UnsettledStreamSays | packages/billing/provider.py:30-76 | when none does, the row says that nothing is known, as failed exactly when an exception ended the stream and else as incomplete |
| AccountingStream.OthersKeepRow | packages/billing/repository.py:84-100 | other calls' transactions leave the row alone |
| AccountingStream.UnknownKeepsHold | packages/billing/service.py:145-205 | settling with unknown usage moves no account and leaves the hold counted as before |
| LedgerMetrics.MonthMatchesAccount | packages/billing/repository.py:167-197 | over a calendar month the scanned sums equal the account's running totals after any interleaving |
| LedgerMetrics.CostCompleteMeansAllPriced | packages/billing/repository.py:167-197 | cost_complete holds exactly when every charge in the interval has an amount |
| LedgerMetrics.CallsPartition | packages/billing/repository.py:167-197 | calls are the successful, failed and incomplete ones together |
| LedgerMetrics.OneMoreCharge | packages/billing/repository.py:159-197 | one more charge in the interval adds one call under its own outcome, its own tokens and its amount, or its hold if it has none |
| LedgerMetrics.OthersDoNotCount | packages/billing/repository.py:159-197 | a charge outside the interval, of another tenant or in another currency changes no metric |
| LedgerMetrics.BreakdownSumsBack | packages/billing/repository.py:198-217 | a column summed over the groups is that column's total |
| LedgerMetrics.BreakdownReconciles | packages/billing/repository.py:198-254 | any listing of the groups, in any order, adds back up to every total of the metrics |
| FinalAnswer.FailedToolReferenceCount | packages/agent/final_answer.py:270-289 | the loop counts exactly the citations that a failed or foreign observation mentions |
| FinalAnswer.Validate | packages/agent/final_answer.py:102-171 | the checks in order decide the verdict and its error code |
| FinalAnswer.ValidExactlyWhenGrounded | packages/agent/final_answer.py:102-171 | an answer is accepted exactly when it says something and every citation is grounded in a usable search, and it is passed on unchanged |
| FinalAnswer.RejectedFor | packages/agent/final_answer.py:102-171 | each rejection has its exact reason: nothing said, a quotation without a citation, a reference to something that failed, or a citation without support, in that order |
| ToolEvents.EventIdInjective | packages/agent/runtime.py:1138-1146 | identifiers of one run agree only when both counters agree |
| ToolEvents.OrderlyIsBracketed | packages/agent/runtime.py:588-737 | attempts numbered by rising steps emit well-bracketed events with distinct identifiers |
| Runtime.CitationRefs | packages/agent/runtime.py:1196-1242 | the loop keeps, in order, exactly the references of the well-formed entries of a successful search |
| Runtime.MentionIsEvidence | packages/agent/runtime.py:1149-1193 | whatever a summary mentions was an entry of that successful search |
| Runtime.EvidenceIsMentioned | packages/agent/runtime.py:1149-1242 | conversely, everything a successful search returned is mentioned by its summary, so it can be cited |
| Runtime.EntryYields | packages/agent/runtime.py:1196-1242 | exactly the well-formed entries yield a reference, each member in its place |
| Runtime.RefsConcat | packages/agent/runtime.py:1196-1242 | the references of a list are those of its entries, in order |
| Runtime.RepeatedActionDetector.Observe | packages/agent/runtime.py:242-260 | the count of the action grows by one and the trigger compares it with the threshold |
| Runtime.RepeatedActionDetector.Restore | packages/agent/runtime.py:265-268 | only positive counts are accepted, and a refusal changes nothing |
| Runtime.TallySum | packages/agent/runtime.py:235-268 | the stored counts add up to the number of observations |
| AgentCourse.FinishAt | packages/agent/runtime.py:873-913 | every end but a final answer carries an error code and a final answer without an error carries none, so what its callers pass yields a consistent result |
| AgentCourse.ValidIsGrounded | packages/agent/final_answer.py:237-267 | an accepted answer's citations come from executions of this run |
| AgentCourse.ExecutingIsInOrder | packages/agent/runtime.py:494-758 | however a tool call goes, budgets, attempts, counts and evidence stay in order, the run goes on only with every execution successful, and a result it ends with is truthful |
| AgentCourse.RunIsInOrder | packages/agent/runtime.py:337-348 | every run ends within its budgets with its attempts in order, and its result is consistent, tells the run's own counters and cites only what this run's searches returned; unless it failed on a tool, every execution it made was successful |
| AgentCauses.PlayingIsCaused | packages/agent/runtime.py:350-758 | every result, cancellation and exception has its cause in the round it came from: a spent budget, a deadline, a repeated action, the stepper, a failed execution or a call without observation, a rejected or an accepted answer |
| AgentCauses.FirstCauseCounts | packages/agent/runtime.py:350-758 | of several causes in one round the first counts, in the order in which they are looked for |
| AgentCauses.GoesOnExactlyWhenSmooth | packages/agent/runtime.py:337-758 | a run goes on after a round exactly when nothing stood in its way, and has then gained one step, one call, one complete attempt, one execution and its summary |
| AgentCauses.CompletesExactlyWhenAnsweredWell | packages/agent/runtime.py:422-492 | a round completes the run exactly when its decision, in budget and time, is an answer that says something and is grounded, and then with that answer and those citations |
| AgentCauses.RunIsCaused | packages/agent/runtime.py:337-348 | every run ends in a round that is the cause of its ending, after smooth rounds only |
| AgentCauses.RunCompletesExactly | packages/agent/runtime.py:337-492 | a run completes if and only if some round answers well after smooth rounds only, and then with the answer of that round |
| AgentCourse.SameRun | packages/agent/runtime.py:262-268 | where a run is suspended and resumed does not enter its course |
| AgentLoop.AgentExecution.Decide | packages/agent/runtime.py:350-420 | the step counts exactly when a decision arrives within budget and time; otherwise the round ends as the course says and nothing changes |
| AgentLoop.AgentExecution.ValidateResult | packages/agent/runtime.py:422-492 | the run is completed exactly when the validator accepts, with that answer and those citations, and otherwise ends as the course says |
| AgentLoop.AgentExecution.Admit | packages/agent/runtime.py:494-587 | tool budget, deadline and repetition refuse a call in that order, each with its own reason and event; an admitted call is observed and nothing else changes |
| AgentLoop.AgentExecution.ExecuteTool | packages/agent/runtime.py:494-758 | counters, events, observations, repeat counts and ending are exactly those of the course, for every way a tool call can go, suspensions around the dispatch included |
| AgentLoop.AgentExecution.PlayRound | packages/agent/runtime.py:337-348 | one turn in place does what one turn of the course does, the detector's counts and the events included |
| AgentLoop.AgentExecution.Resume | packages/agent/runtime.py:262-268 | at any point of a run, also between counting a call and dispatching it, restoring a detector from its own snapshot loses no count |
| AgentLoop.RunAgent | packages/agent/runtime.py:337-348 | for every environment, with cancellation and exceptions at every await and resumption before and after the decision and before and after the dispatch, the run in place follows the course exactly, result, events and counts included; hence it ends within its budgets, dispatches no action threshold times, keeps its events bracketed and its counts exact, a completed run is grounded, and it ends, after smooth rounds only, in a round that is the cause of its ending |
| AgentLoop.ResumptionIsInvisible | packages/agent/runtime.py:262-268 | two executions whose environments differ only in where they are suspended and resumed give the same halt and result, the same events and the same counts |
| RateLimiter.InMemoryToolRateLimiter.Acquire | packages/agent/registry.py:94-124 | it grants exactly while the window has room, and a denial announces when the oldest grant leaves it |
| RateLimiter.StoredIsWindowOfHistory | packages/agent/registry.py:104-124 | at any later time the stored list, cut to the window, is the full history of grants cut to the window |
| RateLimiter.StoredIsExactlyTheWindow | packages/agent/registry.py:104-124 | after every call the stored list is exactly the window of the full history of grants that ends with that call |
| RateLimiter.NoWindowOverfull | packages/agent/registry.py:94-124 | no interval of the window's length ever holds more grants than allowed |
| RateLimiter.ResetIsExact | packages/agent/registry.py:110-124 | undisturbed, a denied caller is granted after exactly the announced wait and at no earlier time |
| ToolDispatch.ToolApprovalGrant.Consume | packages/agent/approval.py:39-58 | a grant succeeds at most once, and only for its own run, tenant, user, tool and arguments, before it expires |
| ToolDispatch.StartedBehindAllGates | packages/agent/registry.py:190-478 | in every interleaving a handler has started only in calls whose every gate passed in that same call |
| ToolDispatch.ApprovedExactlyWhenBacked | packages/agent/approval.py:39-58 | the approval gate passes exactly when none is needed or the request brings an unspent, unexpired grant minted for it |
| ToolDispatch.GrantBacksOneStart | packages/agent/registry.py:285-320 | each grant backs at most one start of a tool that needs approval |
| ToolDispatch.EntersExactlyWhenEnterable | packages/agent/registry.py:190-433 | a call reaches the limiter exactly when registration, mapping, approval, input and permission all allow it |
| ToolDispatch.StartsExactlyWhenAdmissible | packages/agent/registry.py:190-478 | with the limiter's consent the handler starts exactly when the call is enterable and neither dispatch nor grant has lapsed |
| ToolDispatch.StartStep | packages/agent/registry.py:433-478 | a start happens in one step only, with the dispatch unrevoked and the grant unexpired in that step |
| ToolDispatch.NoStartAfterRevoke | packages/agent/registry.py:73-82 | once a dispatch state is revoked no handler under it starts |
| ToolDispatch.OneRecordPerStart | packages/agent/registry.py:479-715 | a call never records twice; a started call has recorded once when over if and only if there is a recorder and its ending is recordable |
| ToolDispatch.Conclude | packages/agent/registry.py:478-715 | exception by exception: the record attempts are one exactly on a recordable ending, a result is returned exactly for a mapping no projection spoilt, and exactly the unrecordable endings escape uncontrolled |
| ToolDispatch.UnrecordableEndings | packages/agent/registry.py:478-715 | any ordinary request starts and ends without a record exactly when the handler ends outside the condition |
| ToolDispatch.RaisingDumpLeavesNoRecord | packages/agent/registry.py:656 | a call whose dump raises |
| ToolDispatch.ListOutputLeavesNoRecord | packages/agent/registry.py:960-965 | a call whose validated output dumps to something that is not a mapping |
| ToolDispatch.SpoiltDumpLeavesNoRecord | packages/agent/registry.py:657-687 | a call whose prompt projection leaves a dump behind whose keys cannot be sorted |
| ToolDispatch.EscapingProjectionLeavesNoRecord | packages/agent/registry.py:657-674 | a call whose prompt projection raises something that is not an Exception |
| ToolDispatch.UncaughtValidationLeavesNoRecord | packages/agent/registry.py:576-616 | a call whose output validation raises something other than the two caught errors |
| ToolDispatch.EscapingHandlerLeavesNoRecord | packages/agent/registry.py:478-544 | a call whose handler cannot be called, or raises something that is not an Exception |
| Revocation.InMemoryTokenRevocationStore.Sweep | packages/auth/revocation.py:93-100 | exactly the entries that still lie in the future are kept |
| Revocation.InMemoryTokenRevocationStore.Revoke | packages/auth/revocation.py:51-56 | purges, then stores a future expiry under the token |
| Revocation.InMemoryTokenRevocationStore.RevokeOnce | packages/auth/revocation.py:58-67 | true exactly when the token was not held and its expiry lies ahead, and then it is held |
| Revocation.InMemoryTokenRevocationStore.IsRevoked | packages/auth/revocation.py:69-73 | true exactly when an unexpired entry is held |
| Revocation.InMemoryTokenRevocationStore.RevokeFamily | packages/auth/revocation.py:75-82 | the later of the two expiries is kept |
| Revocation.InMemoryTokenRevocationStore.IsFamilyRevoked | packages/auth/revocation.py:84-88 | true exactly when an unexpired family entry is held |
| Revocation.FamilyAgreesWithHistory | packages/auth/revocation.py:75-100 | a session counts as revoked exactly when some past revocation of it still lies in the future |
| Revocation.TokenAgreesWithHistory | packages/auth/revocation.py:51-73 | revoked under its own expiry, a token counts as revoked exactly from its first revocation until that expiry |
| Revocation.KeptExactlyUnlessShortened | packages/auth/revocation.py:51-73 | after every call of a history the store says exactly what its revocations promised, if and only if no revoke shortened an expiry still ahead |
| Revocation.FreesNothingExactlyUnlessShortening | packages/auth/revocation.py:51-56 | one revoke frees no token early if and only if it does not replace an expiry still ahead by an earlier one |
| Revocation.RevokeCanShorten | packages/auth/revocation.py:51-56 | a second revocation with an earlier expiry frees the token early |
| RefreshRotation.RunKeepsInv | packages/auth/login_service.py:183-442 | every interleaving keeps token claims, the store's entries and one holder per session |
| RefreshRotation.RotatesOnce | packages/auth/login_service.py:390-421 | revoke_once succeeds only on a token never rotated before |
| RefreshRotation.ExchangedAtMostOnce | packages/auth/login_service.py:390-442 | each refresh token is exchanged at most once in every interleaving |
| RefreshRotation.OneLiveTokenPerSession | packages/auth/login_service.py:183-267 | each session has at most one refresh token that is unexpired and unrevoked |
| RefreshRotation.SessionExpiryIsFixed | packages/auth/login_service.py:353-366 | along every chain the session expiry never changes and no token outlives it |
| RefreshRotation.RevokedSessionStaysRevoked | packages/auth/login_service.py:246-266 | once a session is revoked until its end, only refreshes that could still finish at that moment, all past both revocation checks, ever return tokens for it again |
| RefreshRotation.RefreshSucceedsExactlyWhenLive | packages/auth/login_service.py:269-453 | left alone, a refresh returns tokens exactly when its token is live and its session neither revoked nor over |
| RefreshRotation.LoginIsLive | packages/auth/login_service.py:110-161 | a login with at least a second of refresh lifetime hands out a live refresh token |
| RefreshRotation.ContinuedSessionIsLive | packages/auth/login_service.py:353-453 | left alone, a successful refresh with at least a second of session left hands out a refresh token that is live again |
| RefreshRotation.RevocationDoesNotStopCheckedRefresh | packages/auth/login_service.py:353-453 | each refresh that can still finish does return tokens when left alone, at whichever of the three later points it stands |
| RefreshRotation.RevocationLeavesFinishers | packages/auth/login_service.py:246-266 | revoking the session takes that ability from none of them, whatever time lies between its two clock readings |
| LoginService.LoginService.Login | packages/auth/login_service.py:110-161 | the refresh token ends with the session, at the refresh lifetime, and the access token at its own lifetime or with the session, whichever is sooner, each rounded down to a second |
| LoginService.LoginService.VerifyRefreshToken | packages/auth/login_service.py:183-267 | a token is good exactly when it is a live refresh token of an unrevoked session; the error says which kind of refusal |
| LoginService.LoginService.Refresh | packages/auth/login_service.py:269-453 | new tokens are returned exactly when the token is acceptable; each keeps the session and its end, and ends at its own lifetime or with the session, whichever is sooner; the old token is held until its expiry, no other entry is affected, and each refusal has its exact code |
| LoginService.SpentTokenIsRefused | packages/auth/login_service.py:390-421 | a spent token is never acceptable again, whatever the store has seen since |

## Left out

- SSE payloads: JSON is abstract; what is used of it is that a payload parses back, is printed on one line, and names an event kind that does not begin with `message`.
- UTF-8 decoding: chunks are text with its byte count, so a chunk that ends inside a character is not modelled.
- Decimal arithmetic: the 28-digit context precision of Python's `Decimal` is not modelled; prices and costs are exact.
- Single-attempt provider wrappers: `generate` and `decide` settle like a stream of one chunk and would only add easy members.
- Budget read-out, success rate and average latency of the metrics, and the order of breakdown rows.
- Refresh without a revocation store, and the Redis store with its rounded lifetimes and timeouts.
- JWT signing, password checks, user and group lookup: a refresh receives the decoded claims and whether the user may go on.
- The asyncio cancellation counter of timeouts: a deadline is a flag next to each await, and requests of the caller are counted separately.
- Exceptions of `run` that no modelled await can raise (a failing event sink or configuration).
- Audit contents, logging, metadata redaction and the rewriting of malformed stream error codes.
- The durable journal around a tool dispatch: what it stores and replays is not modelled, only that the repeat detector is snapshotted and restored there.
- Tool-call records: an attempt is counted when recording is entered; whether the record could be built or stored is not modelled.
- Identifier stripping and blank checks: identifiers are taken as already normalised.
- Durable agent, folder sync, retrieval and document processing: not part of this model.
