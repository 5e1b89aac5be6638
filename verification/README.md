# Verified models of the AnyAgent runtime, the option-map language and the provider services

Dafny models of five parts of the repository, with proofs of what they promise. `dafny verify dfyconfig.toml` checks
everything. Code that changes state step by step is a class, proved against a specification function; the promises are
lemmas about that function, about single steps and about whole runs.

## What is modelled

**`TaskRuntime`** (`packages/anyagent-runtime`). One Task with its Session: Inputs, Executions, compactions, file
rewinds, stop requests, attachments, events, approvals and user-input requests. Every asynchronous operation is cut at
its awaits into atomic steps (`SessionSteps`); a run is any sequence of steps, in which calls, events, receipts,
failures, crashes (`Restarting`) and restoring interleave freely. Whatever depends on ownership, authorization or
capabilities is one flag per step that the environment chooses, the set of attachments that have not expired another.
The records that a crash loses are separate fields of the state. `TaskRuntime.TaskRuntime` is the object with its record
maps and loops; each of its methods takes exactly the step of that name and keeps what every run keeps. The table
below lists those with loops or branches of their own; the methods for cancelling, resuming, compacting, rewinding,
stopping, staging, freezing, closing and restoring carry the same kind of contract.
What a step does is said a second time without its functions, as exact causes and effects over the records:
`SessionAdmission` and `SessionDraining` (submitting, draining), `SessionOutcomes` and `SessionTracking` (dispatches,
events, streams that end, reconciliations), `SessionReports` and `SessionStopCauses` (stop requests), `SessionReplies`
(approvals and user-input requests), `SessionCauses` and `SessionUpkeepCauses` (everything else).

**The option-map language** (`packages/model-option-map`). Tokenizer, parser, evaluator, caches and the conflict-checked
application of JSON Merge Patch (section 2 of RFC 7396). The grammar is a set of parser functions; the parser object with
its token index computes them. Printing is the minimally parenthesised form, as tokens and as text. Apart from these
functions stand a grammar by categories (`OptionMapDerivation`), the shape of literals (`OptionMapLexis`), the truth of
reported problems (`OptionMapProblems`), and the meaning of expressions as rules (`OptionMapMeaning`). Small laws of
single operators stand beside the evaluator.

**The refresh services** (`packages/provider`). `AccountProviderService` and `ProviderRegistryService` as
generation-counted loops, and both together with sources and notifications that interleave freely.

**Lease and release cache** (`packages/provider-node`). Any number of processes that share a control file and an active
release file, each access atomic under its lock, the download outside it.

**Ordered membership** (`packages/provider`). `resolveOwnedOrder`, the model edits that use it, the resolver's ordering
and publication, and the registry with its indexes.

## Where the code differs from its intent

- An Execution is meant to have at most one unresolved stop request. `requestStop` checks that before it waits for the
  capability probe (index.ts:3149) and not again when it inserts the request (index.ts:3261). An acknowledgement event in
  between can make an older request unresolved again (index.ts:4884). `SessionLimits.TwoUnresolvedStops` is such a run.
  `SessionStops.OneUnresolvedExactlyWhen` gives the exact condition on runs. `SessionStops.OneUnresolvedAlways` names what
  a run has to avoid: an acknowledgement for an Execution that is being probed.
- `reconcileInput` takes the native identity from the engine. When the run of that Input is still streaming, has no stored
  Execution, and the engine names another identity, a late acceptance revives the Input
  (`SessionLimits.ResultStaysExactlyWhen`, an equivalence), and a second Input can drive beside it
  (`SessionLimits.ForeignReconciliation`). One driver, undriven rewinds and the agreement of Executions with their
  Inputs are therefore stated for runs without these reconciliations (`HonestRun`); everything else holds in all runs.
- `consume` and `expect` compare the value of a token and not its kind, so the strings "]" and "}" pass for brackets.
  The round trip holds if and only if no array starts with the string "]" and no object has "}" as its first key
  (`OptionMapRoundTrip.RoundTrip`, `OptionMapRoundTrip.BracketString`).
- A lease is exclusive per endpoint only: a process with another endpoint takes over at once
  (`LeaseProtocol.TwoEndpoints`). `LeaseProtocol.ExclusiveExactlyWhen` says for all runs that exclusivity fails exactly
  when a step passes the guard because the file names another endpoint, although its lease runs on. One endpoint is an
  instance (`LeaseProtocol.OneEndpointIsSafe`).
- `ProviderRegistry.replace` swaps the view before it builds the indexes; a duplicate leaves the new view beside the old
  indexes (`ProviderRegistry.Registry.ReplaceView`). What the resolver publishes never has one
  (`ProviderRegistry.ResolvedOnce`).
- Reconciling an Execution leaves its pending approvals and user-input requests pending, while a terminal event rejects
  them (index.ts:1141-1180, 4932-4933); the model does the same.

## Model

| member | source | states |
|---|---|---|
| SessionRuns.OneDriverAlways | packages/anyagent-runtime/src/index.ts:2403-2584 | In every reachable state, crashes and restarts included, at most one Input of the Session is received, native-accepted, started or unknown |
| SessionRuns.ExclusionAlways | packages/anyagent-runtime/src/index.ts:3454-3485 | In every run, whatever the engine answers, at most one compaction is active, and a requested file rewind excludes every queued Input, every active compaction and every other requested rewind |
| SessionRuns.RewindsUndrivenAlways | packages/anyagent-runtime/src/index.ts:3712-3736 | In every run of honest reconciliations a requested file rewind excludes every received, accepted, started or unknown Input |
| SessionRuns.StepSound | packages/anyagent-runtime/src/index.ts:5653-5686 | Every step, whatever the engine answers, keeps together: exclusion and positions, one Input per key, recorded dispatches, dispatch at most once, attachments conserved, one Execution per native identity and settled ones by Engine evidence |
| SessionRuns.RunSound | packages/anyagent-runtime/src/index.ts:5992-6141 | All this holds after any run from a state in which it holds |
| SessionRuns.StepSafe | packages/anyagent-runtime/src/index.ts:5653-5686 | Every honest step also keeps one driver, Executions that agree with their Inputs, and undriven rewinds |
| SessionRuns.RunSafe | packages/anyagent-runtime/src/index.ts:5992-6141 | All this holds after any run of honest reconciliations |
| SessionRuns.DispatchedOnce | packages/anyagent-runtime/src/index.ts:2698-2734 | Over any run, with crashes at any step and whatever the engine answers, `engine.run` is called at most once per Input |
| SessionRuns.ResubmissionIsDuplicate | packages/anyagent-runtime/src/index.ts:2376-2415 | Once an Input with an idempotency key is recorded, then after any further run a submission with that key changes nothing: the same request is answered with the first Input, a different one is refused |
| SessionRuns.AttachmentDispatchedOnce | packages/anyagent-runtime/src/index.ts:5158-5311 | Over any run an attachment is handed to the engine in at most one call, and the Input of that call keeps holding it |
| SessionRuns.QueuedTakeable | packages/anyagent-runtime/src/index.ts:5230-5283 | In every reachable state the attachments of a queued Input can be taken or withdrawn exactly when none of them has expired |
| SessionRuns.TurnsStartUnbarredAlways | packages/anyagent-runtime/src/index.ts:4172-4333 | In every reachable state no step starts a turn while a compaction is requested, accepted or unknown, while a file rewind is requested, or while another Input drives |
| SessionRuns.PromotedInOrder | packages/anyagent-runtime/src/index.ts:4172-4333 | Without explicit moves, Inputs are promoted in the order in which they were queued, each at most once queued |
| SessionRuns.NotOvertaken | packages/anyagent-runtime/src/index.ts:2094-2159 | Without explicit moves, an Input that still waits has not been overtaken by one that was queued later |
| SessionRuns.ResultsAreFinal | packages/anyagent-runtime/src/index.ts:4558-4684 | In every run, whatever the engine answers: a completed, failed or stopped Execution is never changed by any later run, carries Engine evidence, and is the only Execution with its native identity |
| SessionRuns.ResultsAgree | packages/anyagent-runtime/src/index.ts:4558-4684 | In every run of honest reconciliations its Input shows the same result for good |
| SessionTurns.StepKeepsTurns | packages/anyagent-runtime/src/index.ts:4393-4690 | Every step keeps: one driver, Executions that agree with their Inputs, one Execution per native identity and per Input, dispatches and streams that belong to driving Inputs |
| SessionTurns.TurnsAfterKeeps | packages/anyagent-runtime/src/index.ts:4692-4935 | Applying any event to the run that delivered it keeps those facts and makes nobody drive who did not drive before |
| SessionTurns.SetUnknownKeeps | packages/anyagent-runtime/src/index.ts:5110-5145 | Losing track of a run keeps those facts: Input and open Execution become unknown together |
| SessionTurns.ReconcileExecutionKeeps | packages/anyagent-runtime/src/index.ts:1103-1180 | Reconciling an Execution keeps those facts |
| SessionTurns.RecoverKeeps | packages/anyagent-runtime/src/index.ts:5992-6141 | Marking the records of a dead process as unknown keeps those facts |
| SessionLimits.ResultStaysExactlyWhen | packages/anyagent-runtime/src/index.ts:917-981 | The result that a reconciliation stores for an Input survives every later event of its run if and only if the engine names the run that is still streaming or an Execution of that run is stored; otherwise a late acceptance revives the Input. The same condition decides whether one driver and the other turn facts are kept |
| SessionTurns.ReconcileInputKeeps | packages/anyagent-runtime/src/index.ts:917-981 | An honest reconciliation of an Input keeps one driver, agreement and single Executions |
| SessionLimits.ForeignReconciliation | packages/anyagent-runtime/src/index.ts:917-981 | A concrete run in which the engine names a foreign identity ends with two driving Inputs |
| SessionLifecycle.StepLawful | packages/anyagent-runtime/src/index.ts:4692-4935 | The only ways in which any step moves an Input: received only by draining, cancelled only on request, rejected only from the queue or before dispatch, unknown only by its own run or dispatch or a crash, a result only when the engine reports or reconciles exactly that result; Executions keep Input and native identity and appear only by acceptance or reconciliation |
| SessionLifecycle.ResultsComeFromReports | packages/anyagent-runtime/src/index.ts:4393-4690 | An event gives a run with an open Execution a result if and only if it is neither a repetition nor a conflict nor foreign, and is an Engine-proven event of exactly that result; Execution and Input stay alike |
| SessionLifecycle.StepCompacts | packages/anyagent-runtime/src/index.ts:3498-3664 | The only ways in which any step moves a compaction: requested only by draining, accepted, completed, skipped or cancelled only by the answer of the engine to a call made for it, failed before the call or by the answer, unknown by the answer or a crash and then for good |
| SessionRecovery.CrashesAreSafe | packages/anyagent-runtime/src/index.ts:5992-6141 | In every run, a crash at any point keeps the queue in its order; until the Session is restored nothing is dispatched, streaming, requested or accepted, and waiting work stays paused |
| SessionRecovery.CrashKeepsQueue | packages/anyagent-runtime/src/index.ts:6018-6060 | A crash changes an Input only from received, accepted or started to unknown |
| SessionRecovery.StepStaysDown | packages/anyagent-runtime/src/index.ts:638-783 | Before the Session is restored no call, event or late answer brings anything back to life |
| SessionQueue.StepKeepsQueue | packages/anyagent-runtime/src/index.ts:2094-2159 | Every step keeps: one active compaction, rewinds alone, pairwise distinct positions of waiting Inputs and compactions, and queued Inputs behind a running compaction |
| SessionQueue.NextIsBehind | packages/anyagent-runtime/src/index.ts:2148-2159 | The next position lies behind all waiting work and all active compactions |
| SessionQuiet.QuietStepContinues | packages/anyagent-runtime/src/index.ts:4393-4690 | In any state a step other than submitting, draining or moving adds no Input, changes no request, makes none received, queues none, moves none in the queue, and takes no dispatch back to its probe |
| SessionQuiet.StepRecorded | packages/anyagent-runtime/src/index.ts:2531-2610 | Every step keeps: what is being dispatched is a recorded Input that does not wait |
| SessionExclusion.StepKeepsUndriven | packages/anyagent-runtime/src/index.ts:3712-3736 | Every honest step keeps requested file rewinds free of driving Inputs |
| SessionFifo.EnqueueAppends | packages/anyagent-runtime/src/index.ts:2492-2590 | A submission that waits goes to the end of the queue that Inputs and compactions share |
| SessionFifo.QueuedCompactAppends | packages/anyagent-runtime/src/index.ts:3420-3433 | A compaction that waits goes to the end of the shared queue; one that starts leaves the queue as it is |
| SessionFifo.PromotionTakesHead | packages/anyagent-runtime/src/index.ts:4172-4333 | What draining promotes is the head of the shared queue and of the Input queue; the rest keeps its order |
| SessionFifo.PromotesExactlyWhen | packages/anyagent-runtime/src/index.ts:4172-4333 | Draining starts the turn of an Input if and only if it is the head of the queue, Task and Session are active, the queue neither paused nor draining, its attachments usable, no Input drives, and no compaction or file rewind is in progress |
| SessionFifo.MovePermutes | packages/anyagent-runtime/src/index.ts:1808-1863 | A move permutes the queued Inputs, puts the moved one directly before its anchor or last, and keeps the order of the others |
| SessionFifo.TurnsStartUnbarred | packages/anyagent-runtime/src/index.ts:2432-2467 | Only submitting or draining starts a turn, and only without a native compaction, requested rewind or driving Input |
| SessionOrder.StepKeepsOrder | packages/anyagent-runtime/src/index.ts:4172-4333 | Every step but a move keeps the promoted Inputs, followed by the waiting ones, in the order of queueing |
| PositionOrder.OrderLists | packages/anyagent-runtime/src/index.ts:2094-2105 | Sorting by distinct positions lists every member once, by ascending position |
| PositionOrder.ListsOnce | packages/anyagent-runtime/src/index.ts:2119-2146 | There is only one such listing |
| SessionSafety.StepRemembers | packages/anyagent-runtime/src/store.ts:57-59 | Every step keeps all Inputs with their requests, and one Input per idempotency key |
| SessionSafety.StepRunsOnce | packages/anyagent-runtime/src/index.ts:6018-6026 | Every step keeps the calls of `engine.run` at one per Input: nothing that was called returns to the queue or to a probing dispatch |
| SessionResults.StepMovesOn | packages/anyagent-runtime/src/index.ts:4692-4753 | In any state no step changes or forgets a settled Execution; single native identities and Engine evidence are kept |
| SessionResults.StepFinal | packages/anyagent-runtime/src/index.ts:4692-4753 | While at most one Input drives, no step changes the status of an Input that is over, or a settled Execution |
| SessionFiles.ClaimAllOrNone | packages/anyagent-runtime/src/index.ts:5158-5228 | A submission claims all its attachments for its new Input, all of them claimable, or touches none |
| SessionFiles.StepKeepsFiles | packages/anyagent-runtime/src/index.ts:5158-5311 | Every step keeps: a holder lists what it holds, a queued Input holds all its attachments with locators, and what was dispatched stays with the Input it was dispatched for |
| SessionStops.ConfirmationIsFinal | packages/anyagent-runtime/src/index.ts:5008-5073 | Over any run a confirmed stop stays confirmed with the same Engine evidence, a delivery stays delivered, and a stop never requested stays so |
| SessionStops.StepStopsLater | packages/anyagent-runtime/src/index.ts:3137-3353 | Every step, under any race of receipt, acknowledgement and terminal event, keeps confirmation with Engine evidence, delivery and never-requested |
| SessionStops.RecordStopKeeps | packages/anyagent-runtime/src/index.ts:3194-3272 | Sending a stop request keeps at most one unresolved request per Execution if and only if none is unresolved at that moment; the source checks that only before the capability probe |
| SessionStops.StepKeepsStops | packages/anyagent-runtime/src/index.ts:4878-4906 | Every other step keeps at most one unresolved request per Execution |
| SessionStops.OneUnresolvedExactlyWhen | packages/anyagent-runtime/src/index.ts:3137-3353 | No Execution has two unresolved stop requests at any moment of a run if and only if no request of the run is recorded while another one of its Execution is unresolved |
| SessionStops.OneUnresolvedAlways | packages/anyagent-runtime/src/index.ts:3137-3353 | In every run in which no event acknowledges a stop of an Execution that is being probed, no Execution ever has two unresolved stop requests |
| SessionLimits.TwoUnresolvedStops | packages/anyagent-runtime/src/index.ts:3149-3272 | A concrete run in which an acknowledgement revives an older request during the probe ends with two unresolved requests for one Execution |
| SessionEvents.RedeliveryIsTransparent | packages/anyagent-runtime/src/index.ts:4393-4556 | Delivering an exact copy of a stored event at any later moment only adds event rows, then and after any further run |
| SessionEvents.CopyAddsNothing | packages/anyagent-runtime/src/index.ts:4402-4423 | A repeated row changes neither which events count as delivered nor which event occupies a place in a stream |
| SessionEvents.RunRows | packages/anyagent-runtime/src/store.ts:221-236 | Runs from states whose event rows give the same verdicts differ only in event rows |
| SessionLoops.SortByPosition | packages/anyagent-runtime/src/index.ts:2119-2146 | Selecting the least position repeatedly gives the unique listing by position |
| SessionLoops.AbovePositions | packages/anyagent-runtime/src/index.ts:2148-2159 | Computes the least number above all taken positions |
| SessionLoops.UpdateAll | packages/anyagent-runtime/src/index.ts:4352-4373 | Every record of a kind is stored changed, no record is added or lost |
| SessionLoops.FindKeyOwner | packages/anyagent-runtime/src/store.ts:208-219 | Finds the Input with an idempotency key, or there is none |
| SessionLoops.FindByNativeKey | packages/anyagent-runtime/src/index.ts:5147-5156 | Finds an Execution with a native identity, or there is none |
| SessionLoops.FindBySequence | packages/anyagent-runtime/src/store.ts:221-236 | Finds the first event at a place of a source stream |
| SessionLoops.RenumberInputs | packages/anyagent-runtime/src/index.ts:1846-1861 | Gives the Inputs of a reordered queue their index as position and leaves all others |
| SessionLoops.TakeOut | packages/anyagent-runtime/src/index.ts:1838 | Removes the moved Input from the queue |
| SessionLoops.PutBefore | packages/anyagent-runtime/src/index.ts:1839-1845 | Puts the moved Input before its anchor, or last |
| SessionLoops.ChangeListed | packages/anyagent-runtime/src/index.ts:5207-5226 | Changes exactly the listed attachments |
| SessionLoops.FindLatestStop | packages/anyagent-runtime/src/index.ts:4878-4882 | Finds the latest stop request of an Execution |
| SessionLoops.ChangeStops | packages/anyagent-runtime/src/index.ts:5075-5108 | Changes every stop request in place and keeps their order |
| SessionLoops.RejectPendingInteractions | packages/anyagent-runtime/src/index.ts:4937-4962 | Rejects exactly the pending approvals and user-input requests of an Execution |
| SessionLoops.FindAnswered | packages/anyagent-runtime/src/index.ts:4964-5000 | Finds the request that a response answers |
| TaskRuntime.TaskRuntime.DecideSubmission | packages/anyagent-runtime/src/index.ts:2376-2530 | The branches of a submission in their order: duplicate, refusal, waiting or starting, as `SessionAdmission.SubmitsExactlyWhen` has them |
| TaskRuntime.TaskRuntime.Submit | packages/anyagent-runtime/src/index.ts:2325-2610 | Takes the submission step, keeps what every run keeps, and answers with an Input that has exactly the submitted request |
| TaskRuntime.TaskRuntime.NextQueuePosition | packages/anyagent-runtime/src/index.ts:2148-2159 | Answers the least position above waiting work and active compactions |
| TaskRuntime.TaskRuntime.QueuedSessionWork | packages/anyagent-runtime/src/index.ts:2119-2146 | Lists waiting Inputs and compactions, next one first |
| TaskRuntime.TaskRuntime.FindProgress | packages/anyagent-runtime/src/index.ts:4172-4256 | Decides whether the queue holds, gives up, or advances its head |
| TaskRuntime.TaskRuntime.Drain | packages/anyagent-runtime/src/index.ts:4172-4333 | Takes the draining step and keeps what every run keeps |
| TaskRuntime.TaskRuntime.QueuedInputs | packages/anyagent-runtime/src/index.ts:2094-2105 | Lists queued Inputs, next one first |
| TaskRuntime.TaskRuntime.MoveQueuedInput | packages/anyagent-runtime/src/index.ts:1808-1863 | Takes the moving step, which MovePermutes characterises, and keeps what every run keeps |
| TaskRuntime.TaskRuntime.WithdrawForEdit | packages/anyagent-runtime/src/index.ts:1716-1806 | Takes the withdrawing step and keeps what every run keeps |
| TaskRuntime.TaskRuntime.CanClaim | packages/anyagent-runtime/src/index.ts:5158-5206 | Decides whether every named attachment can be claimed |
| TaskRuntime.TaskRuntime.ClaimAttachments | packages/anyagent-runtime/src/index.ts:5207-5228 | Gives the named attachments to an Input and takes their locators out of memory |
| TaskRuntime.TaskRuntime.CanTake | packages/anyagent-runtime/src/index.ts:5230-5265 | Decides whether every attachment of a queued Input can be taken |
| TaskRuntime.TaskRuntime.RejectQueued | packages/anyagent-runtime/src/index.ts:4352-4373 | Rejects all queued Inputs and drops their locators |
| TaskRuntime.TaskRuntime.StopWholeQueue | packages/anyagent-runtime/src/index.ts:4335-4373 | Rejects all queued Inputs and fails all queued compactions |
| TaskRuntime.TaskRuntime.CallEngineNow | packages/anyagent-runtime/src/index.ts:2608-2700 | Takes the step after the capability probe: the one call of `engine.run`, or a rejection; keeps what every run keeps |
| TaskRuntime.TaskRuntime.ProcessEvent | packages/anyagent-runtime/src/index.ts:4375-4690 | Takes the step of delivering one event in one transaction and keeps what every run keeps |
| TaskRuntime.TaskRuntime.IsIgnored | packages/anyagent-runtime/src/index.ts:4398-4423 | Decides whether an event is a repetition, conflicts with its place in the stream, or is foreign |
| TaskRuntime.TaskRuntime.MoveTurns | packages/anyagent-runtime/src/index.ts:4692-4935 | Moves Input and Execution as the event says |
| TaskRuntime.TaskRuntime.MoveInteractions | packages/anyagent-runtime/src/index.ts:4760-4933 | Opens, answers or rejects approvals and user-input requests as the event says |
| TaskRuntime.TaskRuntime.MoveLateAnswer | packages/anyagent-runtime/src/index.ts:4964-5000 | Records a confirmed answer that arrives after the end, once |
| TaskRuntime.TaskRuntime.MoveStops | packages/anyagent-runtime/src/index.ts:4878-4906 | Acknowledges, confirms or leaves stop requests as the event says, by the table of `SessionStopCauses.ConfirmedExactlyWhen` and the lemmas beside it |
| TaskRuntime.TaskRuntime.ConfirmAllStops | packages/anyagent-runtime/src/index.ts:5008-5073 | Confirms all unresolved requests, or records a stop that nobody requested |
| TaskRuntime.TaskRuntime.LeaveUnconfirmedStops | packages/anyagent-runtime/src/index.ts:5075-5108 | Leaves unresolved requests unknown, their delivery undecided |
| TaskRuntime.TaskRuntime.MarkUnknown | packages/anyagent-runtime/src/index.ts:5110-5145 | Marks Input and Execution of a lost run as unknown unless they are settled |
| TaskRuntime.TaskRuntime.StreamEnds | packages/anyagent-runtime/src/index.ts:4092-4170 | Takes the step of a stream that ends or fails, which `SessionTracking.StreamEndsExactly` describes in full, and keeps what every run keeps |
| TaskRuntime.TaskRuntime.ReconcileLostInput | packages/anyagent-runtime/src/index.ts:785-993 | Takes the step of reconciling an Input and keeps what every run keeps, whatever identity the engine names |
| TaskRuntime.TaskRuntime.ReconcileLostExecution | packages/anyagent-runtime/src/index.ts:995-1199 | Takes the step of reconciling an Execution and keeps what every run keeps |
| TaskRuntime.TaskRuntime.MarkRecoveredStateUnknown | packages/anyagent-runtime/src/index.ts:5992-6141 | Takes the restart step and keeps what every run keeps |
| OptionMapRoundTrip.RoundTrip | packages/model-option-map/src/parser.ts:61-239 | Parsing the minimally parenthesised tokens of a tree gives the tree back if and only if no array in it starts with the string "]" and no object has "}" as its first key |
| OptionMapRoundTrip.Restores | packages/model-option-map/src/parser.ts:79-145 | At every precedence level and position, what follows notwithstanding, a printed tree without traps is restored and exactly its tokens are taken |
| OptionMapRoundTrip.LosesText | packages/model-option-map/src/parser.ts:182-229 | Parsing a tree with a trap fails or makes fewer string literals than the tree has |
| OptionMapRoundTrip.PrintsApart | packages/model-option-map/src/parser.ts:61-239 | Two trees without traps that print to the same tokens are equal |
| OptionMapRoundTrip.BracketString | packages/model-option-map/src/parser.ts:216-229 | The array that holds the string "]" is refused: consuming compares values, not kinds |
| OptionMapText.TextRoundTrip | packages/model-option-map/src/tokenizer.ts:22-141 | Writing a tree out as text, tokenizing and parsing it gives the tree back under the same condition |
| OptionMapText.Tokenizes | packages/model-option-map/src/tokenizer.ts:22-73 | Tokenizing rendered tokens gives these tokens, their values unescaped, with an end token |
| OptionMapText.ReadsQuoted | packages/model-option-map/src/tokenizer.ts:83-124 | Reading an escaped string literal gives the string |
| OptionMapLexer.TokenizeRestrictedCel | packages/model-option-map/src/tokenizer.ts:22-73 | The tokenizing loop computes the token list, or the first problem, of the source |
| OptionMapLexer.ScanString | packages/model-option-map/src/tokenizer.ts:83-124 | The string loop reads escapes, code units and the closing quote as specified |
| OptionMapLexer.ScanWhile | packages/model-option-map/src/tokenizer.ts:137-141 | The scanning loop stops at the first character that fails the test |
| OptionMapGrammar.ParseAll | packages/model-option-map/src/parser.ts:61-77 | A parse that succeeds took all tokens and made a tree of known operators, JSON-safe literals and distinct keys, with no more strings than string tokens |
| OptionMapGrammar.Parse | packages/model-option-map/src/parser.ts:88-180 | So does every inner parse, which takes at least one token; parsing terminates on every token list |
| OptionMapParser.Parser.ParseProgram | packages/model-option-map/src/parser.ts:61-77 | The parser object computes the specified tree or problem, trailing tokens included |
| OptionMapParser.Parser.ParseConditional | packages/model-option-map/src/parser.ts:79-86 | It computes the specified conditional and leaves the index behind it |
| OptionMapParser.Parser.ParseBinary | packages/model-option-map/src/parser.ts:88-128 | The precedence loop computes the specified left-associative tree, which `OptionMapDerivation.ParseDerives` derives from a grammar written apart |
| OptionMapParser.Parser.ParseUnary | packages/model-option-map/src/parser.ts:130-145 | It computes the specified prefix expression |
| OptionMapParser.Parser.ParsePrimary | packages/model-option-map/src/parser.ts:147-180 | It computes the specified literal, variable, bracketed or compound expression |
| OptionMapParser.Parser.ParseArray | packages/model-option-map/src/parser.ts:182-190 | The element loop computes the specified array |
| OptionMapParser.Parser.ParseObject | packages/model-option-map/src/parser.ts:192-214 | The entry loop computes the specified object and refuses repeated keys |
| OptionMapParser.Parser.Consume | packages/model-option-map/src/parser.ts:216-220 | A token is taken exactly when its value is the wanted one, whatever its kind |
| OptionMapParser.Parser.Expect | packages/model-option-map/src/parser.ts:222-229 | A missing token is reported where it was expected |
| OptionMapMerger.ApplyOrderedJsonMergePatches | packages/model-option-map/src/merge-patch.ts:13-33 | The patches are applied if and only if no two written leaves of different patches overlap; then the result is the fold of the merges, otherwise a really conflicting pair is named |
| OptionMapMerger.CollectWrittenPaths | packages/model-option-map/src/merge-patch.ts:35-49 | Collects exactly the leaves of a patch below the prefix |
| OptionMapMerger.MergeObject | packages/model-option-map/src/merge-patch.ts:63-78 | Merges as section 2 of RFC 7396 does |
| OptionMapMerger.FindConflict | packages/model-option-map/src/merge-patch.ts:13-33 | Finds the first owned path of which one is a prefix of the other |
| OptionMapPatch.AnyOrder | packages/model-option-map/src/merge-patch.ts:13-78 | Every permutation of an accepted list is accepted and gives the same JSON value |
| OptionMapPatch.MergesCommute | packages/model-option-map/src/merge-patch.ts:51-78 | Two patches without overlapping leaves merge in either order to the same value |
| OptionMapPatch.AllReadBack | packages/model-option-map/src/merge-patch.ts:13-78 | After an accepted list every written leaf reads as its patch set it: absent for null, an object for an empty object, else the value |
| OptionMapPatch.RestRemains | packages/model-option-map/src/merge-patch.ts:13-78 | Every path that overlaps no written leaf reads as in the body |
| OptionMapPatch.ReadsBack | packages/model-option-map/src/merge-patch.ts:63-78 | One merge sets each leaf of its patch |
| OptionMapPatch.LeavesRest | packages/model-option-map/src/merge-patch.ts:63-78 | One merge leaves every path alone that overlaps none of its leaves |
| OptionMapEvaluator.Evaluate | packages/model-option-map/src/evaluator.ts:17-50 | The evaluator with its loops computes the one result that obeys the rules of `OptionMapMeaning`, or the first fault |
| OptionMapEvaluator.EvaluatesSafely | packages/model-option-map/src/evaluator.ts:9-105 | From safe literals and a safe input only JSON-safe numbers come out, anywhere in the result |
| OptionMapEvaluator.JsonEqualsIsEquality | packages/model-option-map/src/evaluator.ts:180-199 | The member-by-member comparison decides equality of JSON values |
| OptionMapEvaluator.EntriesGiveObject | packages/model-option-map/src/evaluator.ts:17-50 | An object display evaluates to an object with exactly its keys, or raises a fault |
| OptionMapEvaluator.OperatorsSupported | packages/model-option-map/src/evaluator.ts:58-105 | No parsed expression reaches the branch for unknown operators |
| OptionMapEvaluator.ConnectivesAreConditionals | packages/model-option-map/src/evaluator.ts:58-73 | Conjunction and disjunction mean the conditionals that check their second operand, faults and short circuit included |
| OptionMapEvaluator.OppositeComparisons | packages/model-option-map/src/evaluator.ts:75-145 | Each comparison is the negation of its opposite, faults included |
| OptionMapEvaluator.SwappedComparisons | packages/model-option-map/src/evaluator.ts:122-145 | Swapping two operands that have values turns a comparison around |
| OptionMapCompiler.AcceptedMapsAreSound | packages/model-option-map/src/compiler.ts:35-57 | Running an accepted map raises an evaluation fault or gives an object in which every number is JSON-safe; its check for an object never fails |
| OptionMapCompiler.ObjectResultEvaluates | packages/model-option-map/src/compiler.ts:80-88 | An expression that passes the object check evaluates to an object, or raises a fault |
| OptionMapCompiler.CacheKeyInjective | packages/model-option-map/src/compiler.ts:76-78 | Different pairs of source and variable have different cache keys |
| OptionMapCompiler.Compiler.ParseExpression | packages/model-option-map/src/compiler.ts:67-74 | In any sequence of calls the cached parse equals the uncached one |
| OptionMapCompiler.Compiler.CompileRestrictedCel | packages/model-option-map/src/compiler.ts:17-33 | In any sequence of calls the cached compilation equals the uncached one |
| OptionMapCompiler.Compiler.CompileModelOptionMap | packages/model-option-map/src/compiler.ts:35-57 | In any sequence of calls the cached map equals the uncached one |
| RefreshComposition.RestIsCurrent | packages/provider/src/registry-service.ts:180-255 | Whenever both services rest after rounds that succeeded, the registry shows exactly the current configuration and account, and the account is based on the current built-in revision, whatever the interleaving |
| RefreshComposition.NeverMixed | packages/provider/src/registry-service.ts:205-246 | No published snapshot, and no answer to a waiter, ever mixes two built-in revisions |
| RefreshComposition.AnswersComeInTime | packages/provider/src/account-provider-service.ts:112-235 | In every interleaving each request to either service is answered at most once, and only by a round that began after it; who waits for the account is covered by the running round or a queued reason; the bookkeeping of the registry holds |
| RefreshComposition.StepKeeps | packages/provider/src/registry-service.ts:143-172 | Every step of either service, of a source or of a notification keeps these facts |
| AccountRefresh.NextKeeps | packages/provider/src/account-provider-service.ts:148-217 | Every step of the account service keeps answers in time and waiters covered |
| AccountRefresh.FailureKeepsSnapshot | packages/provider/src/account-provider-service.ts:148-217 | After a first snapshot only a successful round that found a change replaces it |
| RegistryRefresh.NextKeeps | packages/provider/src/registry-service.ts:150-273 | Every step of the registry service keeps: completed never above requested, an open request has a loop or disposal, no waiter at or below the completed generation once there is a snapshot, on the mismatch, same-revision and error exits too |
| RefreshWaiters.SettleKeeps | packages/provider/src/account-provider-service.ts:219-235 | A round that began after so many requests answers exactly the waiters among them, each once |
| RefreshWaiters.AbandonKeeps | packages/provider/src/account-provider-service.ts:91-100 | Disposal answers everybody who waits, once |
| RefreshWaiters.SettleWaiters | packages/provider/src/registry-service.ts:257-273 | The splicing loop answers the waiters up to a generation in order and keeps the others |
| RefreshWaiters.AbandonWaiters | packages/provider/src/registry-service.ts:133-141 | The disposal loop answers everybody |
| AccountProviderService.AccountProviderService.Read | packages/provider/src/account-provider-service.ts:64-71 | Gives the snapshot at hand, else joins or starts a round |
| AccountProviderService.AccountProviderService.RequestRefresh | packages/provider/src/account-provider-service.ts:112-124 | Queues reason and waiter, starts the loop when none runs, and keeps the invariant |
| AccountProviderService.AccountProviderService.RunRefreshLoop | packages/provider/src/account-provider-service.ts:148-155 | Begins a round for everybody who asked so far, or ends the loop |
| AccountProviderService.AccountProviderService.ConcludeRound | packages/provider/src/account-provider-service.ts:169-198 | Publishes a round that nothing superseded, answers its waiters, tells listeners exactly on a change, and keeps the invariant |
| AccountProviderService.AccountProviderService.Throw | packages/provider/src/account-provider-service.ts:199-213 | A failed round refuses its waiters, leaves the snapshot, and keeps the invariant |
| AccountProviderService.AccountProviderService.FinishRefresh | packages/provider/src/account-provider-service.ts:136-146 | A reason that arrived at the last moment starts the loop again |
| AccountProviderService.AccountProviderService.DisposeService | packages/provider/src/account-provider-service.ts:91-100 | Disposal answers everybody and keeps the invariant |
| ProviderRegistryService.ProviderRegistryService.StartService | packages/provider/src/registry-service.ts:76-89 | Starting requests a first round and keeps the invariant |
| ProviderRegistryService.ProviderRegistryService.RequestRefresh | packages/provider/src/registry-service.ts:150-159 | Counts and queues the request, ensures a loop, and keeps the invariant |
| ProviderRegistryService.ProviderRegistryService.RunRefreshLoop | packages/provider/src/registry-service.ts:180-192 | Begins a round for all requests so far, or ends the loop |
| ProviderRegistryService.ProviderRegistryService.ConcludeRound | packages/provider/src/registry-service.ts:202-254 | Publishes, keeps or refuses what a round read, answers the waiters that are due, and keeps the invariant |
| ProviderRegistryService.ProviderRegistryService.ReadFails | packages/provider/src/registry-service.ts:194-200 | A failed read completes the round, refuses waiters, leaves the snapshot, and keeps the invariant |
| ProviderRegistryService.ProviderRegistryService.FinishRefresh | packages/provider/src/registry-service.ts:174-178 | A request that arrived at the last moment starts the loop again |
| ProviderRegistryService.ProviderRegistryService.DisposeService | packages/provider/src/registry-service.ts:133-141 | Disposal answers everybody and keeps the invariant |
| LeaseProtocol.OneEndpointIsSafe | packages/provider-node/src/zcode-builtin-remote-synchronizer.ts:81-168 | With one endpoint, over any interleaving of any number of processes, no two unexpired leases are held at once and each lease takes effect at most once |
| LeaseProtocol.LostForGood | packages/provider-node/src/zcode-builtin-remote-synchronizer.ts:141-168 | A lease that was taken over or finished never comes back: finishing it leaves the control file as it is, after any further steps |
| LeaseProtocol.StepIsExclusive | packages/provider-node/src/zcode-builtin-remote-synchronizer.ts:86-106 | A step keeps leases exclusive if and only if it does not acquire over a file that another endpoint leases until later to a living process; otherwise every unexpired lease is still the one in the file |
| LeaseProtocol.ExclusiveExactlyWhen | packages/provider-node/src/zcode-builtin-remote-synchronizer.ts:81-168 | For any endpoints, processes and interleaving, leases are exclusive at every moment of a run if and only if no step of the run does that |
| LeaseProtocol.TwoEndpoints | packages/provider-node/src/zcode-builtin-remote-synchronizer.ts:89-99 | Two processes with different endpoints in one control file hold unexpired leases at once |
| LeaseProtocol.DelayGrows | packages/provider-node/src/zcode-builtin-remote-synchronizer.ts:148-158 | More failures in a row never wait less, and never more than the maximum |
| LeaseProtocol.DelayDoubles | packages/provider-node/src/zcode-builtin-remote-synchronizer.ts:148-158 | Each failure after the first doubles the delay up to the maximum |
| LeaseProtocol.FinishBacksOff | packages/provider-node/src/zcode-builtin-remote-synchronizer.ts:141-168 | A failure counts one more and bars unforced attempts for its delay; success forgets the count; cancelling bars nobody |
| RemoteSynchronizer.Synchronizer.BeginRefresh | packages/provider-node/src/zcode-builtin-remote-synchronizer.ts:61-110 | Joins the refresh in flight, is skipped with the exact reason, or acquires the lease; otherwise the control file is untouched |
| RemoteSynchronizer.Synchronizer.CompleteRefresh | packages/provider-node/src/zcode-builtin-remote-synchronizer.ts:108-130 | Only a fetched release of an endpoint that is still current reaches the active file; failures and conflicts count as failed, a changed endpoint and a missing release as success, disposal as cancelled, and the lease is finished in every case |
| RemoteSynchronizer.Synchronizer.FinishLease | packages/provider-node/src/zcode-builtin-remote-synchronizer.ts:141-168 | Writes the outcome only while the lease is still held |
| ActiveRelease.OneContentPerRevision | packages/provider-node/src/zcode-builtin-provider-config-source.ts:64-113 | After the first locked read or application, over any interleaving: the active revision never decreases, is never below the bundled one, and each revision number has one content |
| ActiveRelease.HistoryForward | packages/provider-node/src/zcode-builtin-provider-config-source.ts:100-113 | Between any two later moments the active file is the same or newer |
| ActiveRelease.LateDownloadChangesNothing | packages/provider-node/src/zcode-builtin-provider-config-source.ts:64-84 | A download no newer than the active release never changes the file, and is reported as unchanged, conflicting or stale |
| ActiveRelease.ConfigSource.ReadAndMaterialize | packages/provider-node/src/zcode-builtin-provider-config-source.ts:100-113 | Gives the selected release and leaves exactly that in the file |
| ActiveRelease.ConfigSource.Read | packages/provider-node/src/zcode-builtin-provider-config-source.ts:49-62 | Serves the bundled release when the lock fails, else materialises; observes only the first release |
| ActiveRelease.ConfigSource.ApplyRemoteRelease | packages/provider-node/src/zcode-builtin-provider-config-source.ts:64-84 | Replaces the file exactly by a newer release and tells listeners exactly then |
| ActiveRelease.ConfigSource.WatchRefresh | packages/provider-node/src/zcode-builtin-provider-config-source.ts:133-148 | Tells listeners exactly about a release not observed before |
| OwnedOrder.OrderLists | packages/provider/src/owned-order.ts:7-23 | For all inputs, repetitions included, the resolved order lists every member exactly once and nothing else |
| OwnedOrder.OrderIdempotent | packages/provider/src/owned-order.ts:7-23 | Resolving a resolved order changes nothing |
| OwnedOrder.FullOrderStays | packages/provider/src/owned-order.ts:7-23 | An order that lists all members is taken as it is |
| OwnedOrder.PartialOrderExtends | packages/provider/src/owned-order.ts:7-23 | Members that the order does not list go to the front when inherited and to the end when personal; the order stays together |
| OwnedOrder.UniqueValues | packages/provider/src/owned-order.ts:25-34 | The loop keeps the first occurrence of each value |
| ModelEdits.EditsListAll | packages/provider/src/config-service.ts:296-414 | Every model add, rename, delete and reorder leaves an order that lists inherited and personal ids, each once |
| ModelEdits.EditsKeepPersonal | packages/provider/src/config-service.ts:322-414 | Personal ids stay distinct and apart from inherited ones |
| ModelEdits.AddingAppends | packages/provider/src/config-service.ts:322-366 | A new model goes last and the saved order stays |
| ModelEdits.DeletingDrops | packages/provider/src/config-service.ts:521-559 | Deleting leaves the order of the others |
| ModelEdits.RenamingKeepsPlace | packages/provider/src/config-service.ts:368-414 | A renamed model keeps its place |
| ProviderRegistry.ProviderOrderLists | packages/provider/src/resolver.ts:355-376 | Every effective provider is listed exactly once |
| ProviderRegistry.ResolvedOnce | packages/provider/src/resolver.ts:217-344 | What is published holds no provider twice and no model twice |
| ProviderRegistry.ModelsListedOnce | packages/provider/src/resolver.ts:237-248 | The published models of a provider are exactly its executable members, each once |
| ProviderRegistry.Resolve | packages/provider/src/resolver.ts:217-344 | The publishing loop computes the specified view |
| ProviderRegistry.Registry.ReplaceView | packages/provider/src/registry.ts:94-99 | Accepted if and only if the view has no duplicates; then indexed lookup equals a scan of the view, else the old indexes stay beside the new view |
| ProviderRegistry.Registry.ReplaceResolved | packages/provider/src/registry-service.ts:221-232 | What the resolver publishes is never refused: the registry shows exactly that view, and indexed lookup equals a scan of it |
| ProviderRegistry.Registry.RebuildIndexes | packages/provider/src/registry.ts:106-125 | The same for the index loops |
| ProviderRegistry.Registry.GetProvider | packages/provider/src/registry.ts:66-68 | Indexed lookup of a provider equals a scan |
| ProviderRegistry.Registry.HasModel | packages/provider/src/registry.ts:70-72 | Indexed lookup of a model equals a scan |
| ProviderRegistry.UniqueModels | packages/provider/src/registry.ts:114-120 | Decides whether a model occurs twice |
| SessionAdmission.SubmitsExactlyWhen | packages/anyagent-runtime/src/index.ts:2376-2530 | A submission is queued, received or rejected, each if and only if conditions hold that are spelled out over the records (qualified, active, identity and key unused, no requested rewind; something to wait for and Queue delivery, or an idle Session; claimable attachments); otherwise the state is unchanged |
| SessionAdmission.ClaimsExactlyWhen | packages/anyagent-runtime/src/index.ts:5158-5228 | Attachments are claimed all together exactly by a submission that waits or starts; only one that waits keeps their locators, and the locators in memory are used up |
| SessionAdmission.RefusesTruly | packages/anyagent-runtime/src/index.ts:2376-2530 | Every refusal gives a reason that is true of the records, and a duplicate is an Input with the same request |
| SessionAdmission.WaitsLast | packages/anyagent-runtime/src/index.ts:2492-2590 | A submission that has to wait goes to the end of the queue that Inputs and compactions share |
| SessionDraining.DrainsExactlyWhen | packages/anyagent-runtime/src/index.ts:4172-4333 | What becomes of the queue in every case of draining: given up as a whole if and only if Task or Session is inactive or an outcome is unknown; otherwise the first in line starts or takes the queued Inputs down with it exactly under the listed conditions, or nothing happens |
| SessionTracking.StreamEndsExactly | packages/anyagent-runtime/src/index.ts:4103-4170 | When a stream ends, the run is lost if and only if the stream failed or saw no terminal event while its Input was unsettled; then Input and open Execution are unknown, every other queued Input is rejected, and nothing else changes |
| SessionTracking.StepTracks | packages/anyagent-runtime/src/index.ts:4092-4170 | Every step, whatever the engine answers, keeps: a received, accepted or started Input is being dispatched or streams, and a run past its terminal event has a settled Input and a settled Execution |
| SessionTracking.NoRunLost | packages/anyagent-runtime/src/index.ts:4092-4170 | In every run, crashes included, each received, accepted or started Input is being dispatched or its run is streaming |
| SessionTracking.EndedRunsAreKnown | packages/anyagent-runtime/src/index.ts:4103-4132 | When a stream ends in a reachable state, its Input is settled or unknown afterwards and streams no more |
| SessionTracking.EndedExecutionsAreKnown | packages/anyagent-runtime/src/index.ts:5110-5145 | In honest runs the Executions of that Input show the same: settled or unknown |
| SessionOutcomes.FirstEvent | packages/anyagent-runtime/src/index.ts:4558-4684 | The first event that counts of a run accepts its Input with a new Execution if and only if it is an Engine-proven acceptance; otherwise the run is lost |
| SessionOutcomes.LaterEvent | packages/anyagent-runtime/src/index.ts:4692-4935 | Every later event that counts moves Input and open Execution together to the reported status, loses the run when the Engine does not vouch for it, or leaves both; only a terminal report marks the stream |
| SessionOutcomes.EventAside | packages/anyagent-runtime/src/index.ts:4398-4556 | An event that does not count, or comes after the end of its run, changes no Input, Execution, dispatch or stream |
| SessionOutcomes.CallsExactlyWhen | packages/anyagent-runtime/src/index.ts:2608-2700 | `engine.run` is called if and only if a dispatch passes its checks, with the attachments of its Input |
| SessionOutcomes.FailedDispatch | packages/anyagent-runtime/src/index.ts:2735-2770 | A failed dispatch makes the Input rejected or unknown and takes queued Inputs and compactions down exactly as listed |
| SessionOutcomes.RefusedDispatch | packages/anyagent-runtime/src/index.ts:2608-2700 | A dispatch that fails its checks before the call is rejected, and queued Inputs with it exactly when it came from the queue |
| SessionOutcomes.ReturnsExactly | packages/anyagent-runtime/src/index.ts:2725-2734 | When `engine.run` returns, the dispatch is over and its run streams; an answer that nobody waits for is dropped |
| SessionOutcomes.ReconcilesExactly | packages/anyagent-runtime/src/index.ts:785-1199 | Reconciling records exactly what the engine reports about lost work, and changes nothing else |
| SessionPromotions.DrainingAlways | packages/anyagent-runtime/src/index.ts:4172-4182 | In every run the queue is marked as draining if and only if an Input from the queue is being dispatched, so it never gets stuck |
| SessionReports.CountsUnlessIgnored | packages/anyagent-runtime/src/index.ts:4398-4423 | An event counts if and only if it names its run, is not stored for it yet, and its place in its stream is free or was first taken under the same identity |
| SessionStopCauses.ConfirmedExactlyWhen | packages/anyagent-runtime/src/index.ts:4746-4753 | In any step a stop request turns confirmed if and only if it was unresolved and the engine says, by an event that counts or an accepted reconciliation, that its open Execution stopped |
| SessionStopCauses.StoppedSettlesAll | packages/anyagent-runtime/src/index.ts:5008-5073 | When an Execution stopped, none of its requests is left unresolved and one is confirmed |
| SessionStopCauses.EndLeavesUnknown | packages/anyagent-runtime/src/index.ts:5075-5108 | When it completed, failed or got lost, exactly its unresolved requests become unknown, a pending delivery too |
| SessionStopCauses.OthersStay | packages/anyagent-runtime/src/index.ts:5008-5108 | A request changes only when its own Execution is heard of or reconciled, or its own call returns |
| SessionStopCauses.AcknowledgesLatest | packages/anyagent-runtime/src/index.ts:4878-4906 | An acknowledgement changes the latest request only, in the listed way, unless nobody had requested that stop |
| SessionStopCauses.ReturnDecides | packages/anyagent-runtime/src/index.ts:3276-3352 | A receipt or failure decides its own request as listed, unless the Execution ended or the stop was confirmed meanwhile |
| SessionStopCauses.AddedExactlyWhen | packages/anyagent-runtime/src/index.ts:3194-3272 | A request is added if and only if one is sent, one cannot be sent, or an Execution stopped unrequested |
| SessionStopCauses.CallsBeginAndEnd | packages/anyagent-runtime/src/index.ts:3137-3272 | A call begins, is sent and is over exactly as listed; it never begins beside an unresolved request |
| SessionReplies.HeardReplies | packages/anyagent-runtime/src/index.ts:4765-4877 | An event opens a request, answers the first matching one, or rejects the pending ones of an Execution that the engine ended, and touches no other |
| SessionReplies.LateReplies | packages/anyagent-runtime/src/index.ts:4964-5000 | A confirmed answer that arrives after the end is recorded in the first matching request that was not answered yet |
| SessionReplies.RepliesStay | packages/anyagent-runtime/src/index.ts:4937-4962 | Every other step leaves all approvals and user-input requests alone |
| SessionCauses.LifeChangesExactlyWhen | packages/anyagent-runtime/src/index.ts:638-783 | Task, Session, attachment of the Engine and pause of the queue change in a step if and only if it freezes, closes, crashes, restores or resumes under the listed conditions |
| SessionCauses.EndingRejects | packages/anyagent-runtime/src/index.ts:3980-4076 | Freezing and abandoning reject every queued Input and drop their locators; closing otherwise changes no record but the Task |
| SessionCauses.CrashesExactly | packages/anyagent-runtime/src/index.ts:5992-6141 | A crash loses everything in flight and marks the open records of an active Session as unknown, once |
| SessionUpkeepCauses.CompactsExactlyWhen | packages/anyagent-runtime/src/index.ts:3400-3485 | A compaction is recorded if and only if the listed conditions hold; it waits behind queued and received Inputs |
| SessionUpkeepCauses.CallsCompactExactlyWhen | packages/anyagent-runtime/src/index.ts:3545-3600 | The engine is called for a compaction if and only if nothing stands in between; otherwise the compaction fails |
| SessionUpkeepCauses.RewindsExactlyWhen | packages/anyagent-runtime/src/index.ts:3688-3784 | A file rewind is requested if and only if its Execution is settled, the Session idle, and no rewind of it unknown; its outcome is recorded once |
| SessionUpkeepCauses.CancelsExactlyWhen | packages/anyagent-runtime/src/index.ts:1657-1714 | Cancelling takes one queued Input out and drops its locators, or changes nothing |
| SessionUpkeepCauses.WithdrawsExactlyWhen | packages/anyagent-runtime/src/index.ts:1716-1806 | Withdrawing gives all attachments of a queued Input back, or changes nothing |
| SessionUpkeepCauses.MovesExactlyWhen | packages/anyagent-runtime/src/index.ts:1808-1863 | A move changes the places of queued Inputs and nothing else, if and only if no compaction has a place and both Inputs wait |
| OptionMapMeaning.EvaluatorObeys | packages/model-option-map/src/evaluator.ts:17-145 | The evaluator obeys one rule per kind of expression, written without it: members are the values of their entries, elements by index, faults from the left |
| OptionMapMeaning.OnlyEvaluatorObeys | packages/model-option-map/src/evaluator.ts:17-145 | Whatever obeys these rules is the evaluator |
| OptionMapDerivation.ParseDerives | packages/model-option-map/src/parser.ts:70-214 | What a parse gives is derived by a grammar of categories and operator sets that is written apart from the parser |
| OptionMapDerivation.ProgramDerives | packages/model-option-map/src/parser.ts:61-68 | A parsed program is derived from the whole token list |
| OptionMapPrecedence.OperatorsNest | packages/model-option-map/src/parser.ts:88-128 | For operands printed as primaries, `l op m other r` nests to the right if and only if `other` is tighter, by a listed order of operators |
| OptionMapProblems.ProgramProblems | packages/model-option-map/src/parser.ts:61-240 | What a rejected program is told is true of its tokens, at the offset that is named |
| OptionMapProblems.LexicalProblems | packages/model-option-map/src/tokenizer.ts:22-135 | What a rejected text is told is true of it, at the offset that is named |
| OptionMapLexis.EscapesMean | packages/model-option-map/src/tokenizer.ts:97-131 | Which character each escape stands for; any other is refused |
| OptionMapLexis.UnicodeEscapesMean | packages/model-option-map/src/tokenizer.ts:115-123 | Four hexadecimal digits in either case stand for the code unit that they spell in base 16 |
| OptionMapLexis.NumbersAreNumerals | packages/model-option-map/src/tokenizer.ts:75-81 | What is taken for a number is a whole part, an optional fraction and an optional exponent |
| OptionMapLexis.NumeralsAreNumbers | packages/model-option-map/src/tokenizer.ts:75-81 | Every such numeral is taken as one number |
| OptionMapLexis.CharactersMean | packages/model-option-map/src/tokenizer.ts:19-73 | What every character is as a text of its own: space, word, number, operator, punctuation, or refused |
| OptionMapLexis.WordsEnd | packages/model-option-map/src/tokenizer.ts:137-141 | A word goes on exactly as long as letters, digits and underscores follow |
| OptionMapPatch.LeavesAreValues | packages/model-option-map/src/merge-patch.ts:35-49 | A patch writes exactly its values that are not objects with members |
| OptionMapPatch.OverlapUnlessParted | packages/model-option-map/src/merge-patch.ts:51-57 | Paths conflict if and only if they nowhere part |
| OptionMapCompiler.AcceptedExactlyWhen | packages/model-option-map/src/compiler.ts:17-92 | A map is accepted if and only if the stripped text is not empty and denotes an expression all of whose outcomes are object displays; running it gives that value, after a check of the input |
| AccountRefresh.PublishesExactlyWhen | packages/provider/src/account-provider-service.ts:148-217 | The snapshot changes if and only if a round that nothing superseded concludes, or the first round fails after reading the configuration |
| AccountRefresh.RoundsAnswer | packages/provider/src/account-provider-service.ts:219-235 | A round that publishes or fails answers exactly who asked before it began, all alike |
| RegistryRefresh.PublishesExactlyWhen | packages/provider/src/registry-service.ts:180-255 | The registry changes if and only if the latest round read parts that agree and can be resolved |
| RegistryRefresh.RoundsAnswer | packages/provider/src/registry-service.ts:180-273 | What the waiters of a round are told: the new snapshot, the old one when the parts disagree, or the failure |
| LeaseProtocol.AcquiresExactlyWhen | packages/provider-node/src/zcode-builtin-remote-synchronizer.ts:86-113 | A lease is acquired if and only if the file is free for the endpoint, for a fixed time; wait and failures stay for the same endpoint |
| LeaseProtocol.DueExactlyWhen | packages/provider-node/src/zcode-builtin-remote-synchronizer.ts:141-168 | After a finish the endpoint waits exactly as long as the outcome says; force skips the wait |
| LeaseProtocol.FinishesExactlyWhen | packages/provider-node/src/zcode-builtin-remote-synchronizer.ts:141-168 | Finishing changes the file if and only if it still carries the lease and its endpoint |
| ActiveRelease.ReplacesExactlyWhen | packages/provider-node/src/zcode-builtin-provider-config-source.ts:64-84 | A download replaces the release if and only if there is one and the download is newer than both |
| ActiveRelease.ServesNewest | packages/provider-node/src/zcode-builtin-provider-config-source.ts:180-205 | A read gives one of the two releases, never an older one, and the bundled one when both are as new |
| OwnedOrder.OrderRespects | packages/provider/src/owned-order.ts:7-23 | Any two members keep the order asked for, whatever else the request holds; inherited members left out come first, personal ones last |
| ModelEdits.ReorderingRespects | packages/provider/src/config-service.ts:296-320 | Reordering is never refused, leaves the personal ids, and puts any two models in the order asked for |
| ProviderRegistry.ResolvedExactlyWhen | packages/provider/src/resolver.ts:217-344 | A provider is published if and only if it is effective, complete, and lists a model that can be executed |
| ProviderRegistry.ProvidersRespect | packages/provider/src/resolver.ts:355-376 | The built-in families come first, the others in the order asked for |
| ProviderRegistry.ModelsRespect | packages/provider/src/resolver.ts:237-248 | Published models keep the order asked for |
| AccountRefresh.AsksExactlyWhen | packages/provider/src/account-provider-service.ts:64-125 | A call is numbered and waits for a round if and only if it is a refresh, or a read while there is neither a snapshot nor a loop; the first call starts the service |
| AccountRefresh.TellsExactlyWhen | packages/provider/src/account-provider-service.ts:170-205 | Listeners are told if and only if a round replaces an earlier snapshot by a different one |
| RegistryRefresh.AsksExactlyWhen | packages/provider/src/registry-service.ts:76-159 | A round is asked for, numbered and waited for if and only if the service starts, starts again without a snapshot, or is refreshed after the start |
| OptionMapProblems.CallsAreRefused | packages/model-option-map/src/parser.ts:148-170 | A word before a parenthesis is refused as a call wherever an expression may start |
| OptionMapCompiler.VariablesMean | packages/model-option-map/src/compiler.ts:67-78 | The names by which the maps of the two options mention their input |

## Left out

- SessionTurns.StepKeepsTurns: assumes that the engine reconciles an Input whose run is still streaming under the identity of that run, because the statement is false otherwise; an identity other than that of the run is allowed when an Execution of the run is stored.
- SessionExclusion.StepKeepsUndriven: assumes the same.
- SessionStops.StepKeepsStops: excludes sending a request while another one is unresolved, because the statement is false otherwise.
- OptionMapMerger.ApplyOrderedJsonMergePatches: names some conflicting pair, not necessarily the first, because object members have no order in the model.
- ProviderRegistryService.ProviderRegistryService.ConcludeRound: assumes that listeners do not throw; a listener that does makes the source reject waiters after publication.
- AccountProviderService.AccountProviderService.ConcludeRound: assumes the same of its listeners.
- SessionStops.OneUnresolvedAlways: excludes acknowledgements during a probe; `SessionStops.OneUnresolvedExactlyWhen` has the exact condition.
- RemoteSynchronizer.Synchronizer.BeginRefresh: takes the resolved endpoint as a parameter; a refresh that joins another one shares its outcome.
- RemoteSynchronizer.Synchronizer.CompleteRefresh: runs from the download to the end in one go, the other processes before or after it; failures of file writes are not modelled.
- ActiveRelease.ConfigSource.Read: one flag stands for a failed lock, watcher or write; configurations whose active and bundled path are the same file are not modelled.
- Several Tasks and Sessions in one store; creating, importing and forking Tasks; the race between closing a Task and creating its Session.
- Revision turns (edit and retry), and `sendQueuedInputNow`, which composes a move with a stop request.
- The commands that reply to approvals and user-input requests; the events about them are modelled.
- Probing of capabilities, grants and ownership checks: one flag per step.
- Issues, projections, publication to subscribers, sidebar metadata, titles, assistant feedback, history.
- Queued records without a stored position, which the source orders by creation.
- The clock: stop requests are listed in the order in which they were made, as with a clock that never goes back.
- SQLite: record kinds are maps, transactions are atomic; expiry and metadata of attachments are one set per step.
- Event payload comparison for issues, sequence gaps and late events, which add issues only.
- Source offsets in expression trees; errors carry theirs.
- IEEE arithmetic: numbers are abstract, with a JSON-safe test, an order and partial operations; identity of numbers stands for `Object.is`.
- The order of object members, frozen values and clones.
- UTF-16 surrogates: how a `\u` escape becomes characters is a parameter.
- Parsing and validation of provider configuration: whether a provider is complete and a model executable is an input.
- Model option validation, personal provider edits other than the order of models, drafts of models.
- The texts of refresh reasons in the registry and the error events of both services.
- Failing writes of the control file, its corruption from outside, and the error event of the file watcher.
- rpc, serialization, engine adapters, user interfaces.
