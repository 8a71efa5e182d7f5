# Verified model of the resident agent kernels

This project models the stateful and algorithmic kernels of the resident agent
package in Dafny and proves what they promise.

* The resident bounded loop (`ResidentLoop` and the modules beside it) is a
  crash-prone protocol over an append-only event stream: `advance` and `resume`
  as chains of awaited port requests, each followed by a reverification that
  spends a one-use token. Its environment answers every request as it likes,
  other writers append to the same stream, and the process may stop at every
  await and restart. Runs are sequences of such steps; results are stated for
  all of them. `ResidentCooperation` and `ResidentCompletable` build runs for the
  other direction: what completed calls write is characterised exactly, and so
  is which advances can complete at all.
* `CanonicalJson` is the canonical text by which all identities are compared,
  with a parser that proves it injective.
* `EventLedgers`, `ResidentStore`, `ResidentRecorder`, `ResidentProjection` and
  `ResidentSegments` are the ledger, the two optimistic-concurrency stores on it
  and their read models, with any number of callers interleaving at every await.
* `LocalModelProvider`, `PromptReadback` and `IdentityBootstrap` are three small
  concurrent kernels: reservations that outlive abandoned work, one-shot
  witnesses, and a bootstrap race.
* `MemorySelection`, `MemorySnapshot`, `EvidenceBudget`, `EvidenceRows`,
  `SelectionManifest`, `ContextPackMatching`, `ApprovalQueue`, `ApprovalCockpit`
  and `DomainAttestation` are algorithms proved against simple specifications.
* `ResidentLoopGates`, `ResidentRecordFields`, `ResidentSuspension`,
  `ResidentStoreKeys`, `ResidentViews` and `ApprovalPlaces` say when each
  operation answers what, and what each record holds, in terms of the recorded
  fields themselves.
* `Sequences`, `Sorting` and `TextSets` hold facts that several of them share.

State that the program updates in place (the loop token and flag, the ledger,
the reservation counter, the witness bindings) is a class whose methods are tied
to the step functions of the corresponding machine; loops over arrays and maps
are methods with invariants. Calls into code outside the model (event and
sequence validators, payload parsers, text screening, hashes, the host's text
comparison) are function-valued parameters about which nothing is assumed
beyond what a contract says.

Five statements that one might expect are false of the code; the model keeps
the code as it is, shows the failing case, and states for all inputs exactly
when they hold:

* A reverification separates any two requests. It does not when the first was
  rejected and ended its call
  (`ResidentLoopTokens.RejectionLeavesRequestsUnseparated`); exactly:
  `ResidentLoopTokens.UnseparatedRequests`.
* A V2 append that has become durable succeeds. On its own it fails whenever the
  validator refuses the stream it has extended
  (`ResidentStore.DurableYetFailed`); over all interleavings, exactly:
  `ResidentStore.DurableAppendFailsExactly`.
* Manifest canonicalisation forgets the order of references
  (`SelectionManifest.TiesKeepTheirOrder` shows two it does not); exactly:
  `SelectionManifest.CanonicalAgreesIff`.
* A newer mounted authority kills every older witness. One created after the
  recheck comes too late (`PromptReadback.LaterAuthorityIsTooLate`); exactly:
  `PromptReadback.NewerAuthorityDecides`.
* Adding a lock only blocks requests. One that names an unsupported class makes
  the whole queue throw (`ApprovalQueue.UnsupportedLockThrows`); exactly:
  `ApprovalQueue.AddedLocksOnlyBlock`.

Check everything with `dafny verify dfyconfig.toml`.

## Model

| member | source | states |
|---|---|---|
| CanonicalJsonProofs.ReadEscaped | packages/agent/src/bounded-agent-loop.ts:2197-2210 | Quoting (QuoteJSONString, section 25.5.2 of ECMA-262) is undone by reading: every text, lone surrogates included, comes back whatever follows its closing quote. |
| CanonicalJsonProofs.RoundTrip | packages/agent/src/bounded-agent-loop.ts:2197-2210 | A parser of section 7 of RFC 8259 strings, integers, arrays and objects recovers the value of every canonical text, and exactly what follows it, for any legal continuation. |
| CanonicalJsonProofs.SameCanonicalIsSameValue | packages/agent/src/bounded-agent-loop.ts:2187-2210 | sameCanonical holds exactly when both sides are the same JSON value, member order aside. |
| CanonicalJsonProofs.PrintedTextsAreSeparable | packages/agent/src/bounded-agent-loop.ts:2197-2210 | Two canonical texts with continuations are equal only if value and continuation are: no text is a prefix of another reading. |
| CanonicalJsonProofs.SortingForgetsEnumeration | packages/agent/src/bounded-agent-loop.ts:2204-2208 | Objects with the same keys print them in the same order however they were enumerated. |
| CanonicalJsonProofs.KeysRise | packages/agent/src/bounded-agent-loop.ts:2204-2208 | Keys are printed in rising code-unit order, compared at their first difference. |
| ResidentBudget.AdvanceSucceedsIff | packages/agent/src/bounded-agent-loop.ts:1790-1822 | advanceBudget succeeds exactly when the record is well formed and the field has a unit left. |
| ResidentBudget.AdvanceIsProgress | packages/agent/src/bounded-agent-loop.ts:1790-1868 | Whatever advanceBudget returns passes normalizeBudget and requireBudgetProgression from its input and spends exactly one unit of exactly that field. |
| ResidentBudget.TotalFallsByOne | packages/agent/src/bounded-agent-loop.ts:1790-1822 | Every advance lowers the total remaining over all ten fields by one, and it never goes below zero. |
| ResidentBudget.ChainConserves | packages/agent/src/bounded-agent-loop.ts:1824-1868 | In every accepted chain the final consumption of a field is the first plus the sum of the later actions, and never passes the hard maximum. |
| ResidentBudget.ChainIsMonotone | packages/agent/src/bounded-agent-loop.ts:1856-1868 | Consumption never falls along an accepted chain. |
| ResidentBudget.AdvancesFormChain | packages/agent/src/bounded-agent-loop.ts:1790-1868 | Any series of advances forms an accepted chain. |
| ResidentBudget.AdvancesAreBounded | packages/agent/src/bounded-agent-loop.ts:1790-1822 | No series of advances is longer than the units remaining at its start. |
| ResidentLoopGates.ValidIsWithinMaxima | packages/agent/src/bounded-agent-loop.ts:97-112 | A budget record is accepted exactly when all ten ceilings are the hard maxima, the last action is part of what is consumed and what remains is the rest. |
| ResidentRecords.ObservationIdsDiffer | packages/agent/src/bounded-agent-loop.ts:1367-1526 | The context, final and recovery observation identifiers of one plan are pairwise different, so the store never takes one for a repetition of another. |
| ResidentReplay.ValidateEventChain | packages/agent/src/bounded-agent-loop.ts:1068-1095 | The one-pass loop accepts exactly the sequences with well-formed distinct identifiers, rising sequence numbers and an accepted budget chain. |
| ResidentReplay.UnbindBind | packages/agent/src/bounded-agent-loop.ts:1097-1126 | Binding and then unbinding a plan restores it exactly when its step carried neither bound field. |
| ResidentReplay.BoundPlanMatches | packages/agent/src/bounded-agent-loop.ts:1298-1365 | The durable plan matches the proposal exactly when the proposed step was unbound, and the step key read back is the key of the binding. |
| ResidentReplay.WrittenPayloadsMatch | packages/agent/src/bounded-agent-loop.ts:1128-1190 | Every payload that a completed call wrote is rebuilt exactly by the payload checks of replay. |
| ResidentReplay.WrittenChain | packages/agent/src/bounded-agent-loop.ts:1367-1526 | The five budgets of a completed segment form an accepted chain that starts at the budget of its plan. |
| ResidentReplay.ReplayRoundTrip | packages/agent/src/bounded-agent-loop.ts:526-594 | The five events of a completed advance are accepted for the same candidate exactly when its step carried neither a tool request ID nor a capability hash, and yield the recorded result event. |
| ResidentRecordFields.CompletedSegmentSays | packages/agent/src/bounded-agent-loop.ts:1367-1526 | In every run, the five records a completed call has made durable, field by field: the plan bound in its one step, each observation and the tool step with what caused it, what it was read back from, what it carries over and the one unit it spends. |
| ResidentRecordFields.SuspendingSegmentSays | packages/agent/src/bounded-agent-loop.ts:1367-1526 | The same for the four records behind a suspension, whose tool step is suspended and caused by the request or the claim. |
| ResidentRecordFields.RecoverySaysInRuns | packages/agent/src/bounded-agent-loop.ts:1402-1436 | The same for the recovery observation that a resume asks to append. |
| ResidentRecordFields.SpendsOneExactly | packages/agent/src/bounded-agent-loop.ts:1790-1822 | advanceBudget yields a record exactly when that record spends one unit of the field and is the rest of the one before. |
| ResidentLoopState.LoopState.constructor | packages/agent/src/bounded-agent-loop.ts:189-192 | A loop instance starts where the machine starts: with the issued token and nothing in flight. |
| ResidentLoopState.LoopState.Enter | packages/agent/src/bounded-agent-loop.ts:2174-2178 | A second call on a loop in flight is turned away and changes nothing. |
| ResidentLoopState.LoopState.Leave | packages/agent/src/bounded-agent-loop.ts:2178-2184 | The end of a call clears the flag and leaves the token alone. |
| ResidentLoopState.LoopState.SpendToken | packages/agent/src/bounded-agent-loop.ts:853-857 | A token leaves the state before the authority is asked, and is gone whatever happens then. |
| ResidentLoopState.LoopState.Advance | packages/agent/src/bounded-agent-loop.ts:206-221 | Advancing takes the fields where the machine goes: a call on a loop in flight changes nothing, one without a token or with an inadmissible candidate leaves the loop idle with its token as it was. |
| ResidentLoopState.LoopState.Resume | packages/agent/src/bounded-agent-loop.ts:210-389 | Resuming takes the fields where the machine goes: the old token is given up before anything is awaited, but only behind the input checks. |
| ResidentLoopState.LoopState.TakeUp | packages/agent/src/bounded-agent-loop.ts:811-857 | Taking up an answer takes the fields where the machine goes: the token is spent on the reverification, except that an uncaught rejection ends the call with its token. |
| ResidentLoopState.LoopState.Reverify | packages/agent/src/bounded-agent-loop.ts:857-869 | The answer of a reverification takes the fields where the machine goes: a new token stays unless the call hands it to a suspension, and a refusal ends the call without one. |
| ResidentLoopState.LoopState.Suspended | packages/agent/src/bounded-agent-loop.ts:371-375 | The settlement of a suspension ends the call, without a token. |
| ResidentLoopState.LoopState.Recovered | packages/agent/src/bounded-agent-loop.ts:390-390 | A failed recovery of the suspension prefix ends the call, without a token. |
| ResidentLoopState.LoopState.Reclaim | packages/agent/src/bounded-agent-loop.ts:391-399 | A reclaim brings a token and the call goes on; a refused one ends it without. |
| ResidentLoopState.TokenHeldExactlyAtPorts | packages/agent/src/bounded-agent-loop.ts:853-869 | In every run a loop in flight holds a token exactly while it waits for a port, and none while it waits for the authority. |
| ResidentLoopState.SpentTokensAreGone | packages/agent/src/bounded-agent-loop.ts:853-857 | In every run a token that has been presented to the authority is never held again. |
| ResidentLoopGates.CallsBeginExactly | packages/agent/src/bounded-agent-loop.ts:204-231 | In every run an advance asks for the replay exactly when the loop is idle, holds a token and the candidate is its own, and a resume gives its token up exactly when the suspension is its own; otherwise nothing changes but a failed outcome in the log. |
| ResidentLoopGates.CallsFailExactly | packages/agent/src/bounded-agent-loop.ts:216-524 | In every run, port by port: a reverified answer ends its call in failure exactly when the replay, candidate, binding, event, gateway record, material or handoff it brings is not one the call can go on with, each condition written out on the records. |
| ResidentLoopTokens.TokenLinearity | packages/agent/src/bounded-agent-loop.ts:853-869 | In every run with overlapping calls, crashes and other writers no token is presented twice, a reverification (or reclaim, restart, rejection) lies between any two requests, and after a refusal, a suspension or the start of a resume nothing is asked until a reclaim or restart. |
| ResidentLoopTokens.UnseparatedRequests | packages/agent/src/bounded-agent-loop.ts:811-869 | Two consecutive requests have no reverification, reclaim or restart between them exactly when the first was rejected, its call ended, and every call begun since ended without a request. |
| ResidentLoopTokens.RejectionLeavesRequestsUnseparated | packages/agent/src/bounded-agent-loop.ts:216-231 | That case does occur: a rejected replay read ends the call with its token unspent, and the next advance asks again with no reverification in between. |
| ResidentLoopExecution.AtMostOneAttemptPerRevision | packages/agent/src/bounded-agent-loop.ts:216-524 | In every run of one loop no plan revision is executed twice: at most one attempt by an advance, then at most one by a resume, of the next revision. |
| ResidentLoopExecution.AttemptsAreBackedByTheStream | packages/agent/src/bounded-agent-loop.ts:216-524 | An advance executes only from an empty replay with its plan durable; a resume only from exactly six suspended events, with its recovery observation and new plan durable and at least seven events in the stream. |
| ResidentLoopExecution.RecoveryIsNew | packages/agent/src/bounded-agent-loop.ts:415-445 | The recovery observation spends a unit that none of the six events has spent, so it is a seventh event. |
| ResidentLoopAuthorization.ExecutionIsAuthorized | packages/agent/src/bounded-agent-loop.ts:269-330 | Whenever the tool runs the gateway record agrees with the binding, and an advance has either an automatic-policy request or a human-approved decision that it read; a resume runs a record at stage requested. |
| ResidentLoopAuthorization.CompletedResultIsBacked | packages/agent/src/bounded-agent-loop.ts:302-345 | A completed call returns a result whose tool step carries the material of a completed gateway record for its own binding. |
| ResidentLoopCompletion.RejectedExecutionNeverCompletes | packages/agent/src/bounded-agent-loop.ts:300-325 | After a rejected execution no completed outcome is logged before that call has ended: the failed attempt never completes in its call. |
| ResidentLoopCompletion.CompletedSegmentIsWrittenAndDurable | packages/agent/src/bounded-agent-loop.ts:596-714 | When a call returns the result it wrote, all five events of its segment are in the stream and are exactly what the payload builders make of its plan, binding, material and handoff. |
| ResidentLoopCompletion.ResumedChainIsAccepted | packages/agent/src/bounded-agent-loop.ts:377-524 | The six events read, the recovery observation and the five new events of a completed resume form one accepted budget chain of twelve. |
| ResidentSuspension.SuspendsExactly | packages/agent/src/bounded-agent-loop.ts:346-374 | In every run a token is handed to the suspension exactly by the reverification that granted it, of an advance that has read its final observation back, whose gateway record is not completed and whose candidate says when it was assessed; without that last the call fails. |
| ResidentSuspension.SuspensionHasCause | packages/agent/src/bounded-agent-loop.ts:281-323 | In every run a suspending call has had reading the decision rejected, its record still requested, or its execution rejected, its record claimed. |
| ResidentSuspension.SuspendedExactly | packages/agent/src/bounded-agent-loop.ts:371-375 | The settlement of a suspension that released the loop, and nothing else, ends a call as suspended. |
| ResidentSuspension.SuspendingSegmentIsWrittenAndDurable | packages/agent/src/bounded-agent-loop.ts:324-374 | In every run the four records of a suspending call are in the stream and are what the payload builders make of its plan, binding and material. |
| ResidentSuspension.EverySuspensionOccurs | packages/agent/src/bounded-agent-loop.ts:216-374 | Every four buildable records are what some advance has written, and all there is in the stream, when it hands its token over: behind a rejected decision as well as behind a rejected execution. |
| ResidentLoopCompletion.SecondAdvanceReturnsTheResult | packages/agent/src/bounded-agent-loop.ts:526-594 | The two continuations of a second advance with the same unbound candidate: the five written events lead to the handoff read, and an unchanged handoff to the recorded result event. |
| ResidentSecondAdvance.SecondAdvanceOnlyReplays | packages/agent/src/bounded-agent-loop.ts:526-594 | In every run, from the start of a second advance to its end, with other writers, overlapping calls, rejections and refusals: only the replay and the handoff are asked for, nothing is executed, no step but another writer's changes the stream, and a completion is the recorded result event. |
| ResidentSecondAdvance.SecondAdvanceGetsThere | packages/agent/src/bounded-agent-loop.ts:526-594 | And the call gets there: once reverified, an answered replay leads to the handoff, an answered handoff to the recorded result, and every other answer to a failure. |
| ResidentCooperation.EverySegmentIsWrittenBySomeAdvance | packages/agent/src/bounded-agent-loop.ts:216-356 | The converse of what a completed call has written: any five events that the payload builders make for a binding, material and handoff are the segment of some completed advance. |
| ResidentCooperation.EverySegmentIsWrittenBySomeResume | packages/agent/src/bounded-agent-loop.ts:377-524 | The same for a resume behind any suspended segment and any recovery observation built from it. |
| ResidentCompletable.AdvanceCanCompleteExactly | packages/agent/src/bounded-agent-loop.ts:216-356 | For an admissible candidate some run of an advance completes exactly when its plan has one step, the texts the builders read are present and the budget has room for two observations, a tool step and the result. |
| ResidentLoopTermination.EveryContinuationIsNearer | packages/agent/src/bounded-agent-loop.ts:216-524 | Whatever a port answers, the next request is strictly nearer to the end of the call. |
| ResidentLoopTermination.RequestsAreBounded | packages/agent/src/bounded-agent-loop.ts:216-524 | In every run an advance makes at most eighteen requests and a resume at most nineteen. |
| EventLedgers.EventLedger.Append | packages/ontology/src/event-ledger.ts:121-151 | An append succeeds exactly when both expected counts match, then adds one event with the next stream sequence; otherwise nothing changes. |
| EventLedgers.StreamIsNumbered | packages/ontology/src/event-ledger.ts:121-157 | The i-th event of a stream carries sequence number i + 1. |
| EventLedgers.MatchingCountsMeanCurrent | packages/agent/src/plan-observation-contracts.ts:363-410 | If a stream and the whole ledger were read at different earlier moments and both counts still match, both readings are the present contents. |
| ResidentStore.CheckUnused | packages/agent/src/plan-observation-contracts.ts:558-580 | The loop over a Set refuses repeated IDs first, then IDs burned by any plan step or resident domain locator, and accepts exactly the rest. |
| ResidentStore.CheckBeforeAppend | packages/agent/src/plan-observation-contracts.ts:369-392 | An event holding the key decides by payload equality; otherwise a plan must pass the burned-ID check; only then is there an append. |
| ResidentStore.AppendResident | packages/agent/src/plan-observation-contracts.ts:357-434 | The append on the mutable ledger: ledger and outcome are those of the specification, and the safety of the ledger is kept. |
| ResidentStore.StoreSafety | packages/agent/src/plan-observation-contracts.ts:357-434 | Under any interleaving of appenders with separate stream and global reads: one event per stream, type and stable key; every step request ID at one position of one plan; no plan uses an ID that an earlier domain event burned. |
| ResidentStore.ReturnedIsRecorded | packages/agent/src/plan-observation-contracts.ts:418-434 | A call that returns has its exact payload in its own stream, and the exact reread by identifier never fails. |
| ResidentStore.RepeatedAppend | packages/agent/src/plan-observation-contracts.ts:369-381 | A call that begins while an event of its stream holds its key never changes the ledger; with an equal payload it can end only by returning that event, with another only by failing. |
| ResidentStore.AppendIsIdempotent | packages/agent/src/plan-observation-contracts.ts:357-434 | Appending the same payload again returns the recorded event and leaves the ledger unchanged, even after a first append that failed once durable. |
| ResidentStore.DurableYetFailed | packages/agent/src/plan-observation-contracts.ts:405-430 | An undisturbed and acknowledged append is durable and still fails exactly when it passes every check up to the compare-and-append and the validator refuses the extended stream. |
| ResidentStore.DurableAppendFailsExactly | packages/agent/src/plan-observation-contracts.ts:405-434 | Over every interleaving an admitted append stays durable, and its call fails exactly when the acknowledgement was lost or the validator refused the stream, with whatever others had appended by then, and returns exactly when it accepted it. |
| ResidentStore.UninterruptedIsAlone | packages/agent/src/plan-observation-contracts.ts:357-434 | Seven uninterrupted steps of the interleaved machine do exactly what the append does on its own. |
| ResidentStore.ReplayStep | packages/agent/src/plan-observation-contracts.ts:513-541 | One step adds at most one event to what readReplay returns, at its end, and only the append of a resident event of that stream does. |
| ResidentStore.ReplayOnlyGrows | packages/agent/src/plan-observation-contracts.ts:513-541 | What was read of a stream stays the front of every later replay, in every run. |
| ResidentStoreKeys.KeysTellSubjects | packages/agent/src/plan-observation-contracts.ts:543-556 | Two payloads share a stable key exactly when they are of one kind and have the same planId; the same observationId; the same request ID, stage and state; the same checkpoint event and category; or the same plan, revision, final observation, outcome and category. |
| ResidentStoreKeys.ColonsMayMislead | packages/agent/src/plan-observation-contracts.ts:543-556 | Two different suspensions whose texts carry colons can share a key. |
| ResidentStoreKeys.NothingIsRecordedTwice | packages/agent/src/plan-observation-contracts.ts:369-381 | In every run no two records of a stream are about the same thing in that sense. |
| ResidentStoreKeys.KeyIsRefusedExactly | packages/agent/src/plan-observation-contracts.ts:369-381 | In every run a call is refused for its key exactly when the stream it read holds a different payload about the same thing, and answered from the stream exactly when it holds the payload itself. |
| ResidentStoreKeys.OnlyDecisionsRefuseKeys | packages/agent/src/plan-observation-contracts.ts:369-381 | Nothing else refuses a key. |
| ResidentStoreKeys.AppendsExactly | packages/agent/src/plan-observation-contracts.ts:357-410 | An undisturbed append adds its event exactly when the payload parses and names the default agent in full, its stream holds nothing about the same thing and a plan names only new request IDs; otherwise the ledger stays as it is. |
| ResidentStoreKeys.RefusalsExactly | packages/agent/src/plan-observation-contracts.ts:369-392 | Which refusal a fresh read leads to: the key first, then a repetition inside the plan, then one with the ledger. |
| ResidentStoreKeys.StreamsTellRuns | packages/agent/src/plan-observation-contracts.ts:51-53 | Runs that share two of task, attempt and run share a stream only if they share the third. |
| ResidentStoreKeys.VersionsShareStreams | packages/agent/src/plan-observation-contracts.ts:51-53 | Both versions of the records of a run stand in one stream. |
| ResidentRecorder.Record | packages/agent/src/plan-observation-contracts.ts:59-110 | recordPlan and recordObservation on the mutable ledger: ledger and outcome are those of the specification. |
| ResidentRecorder.RunKeepsRecorder | packages/agent/src/plan-observation-contracts.ts:59-232 | Over every interleaving every recorded event was new under its key, and every observation binds an earlier plan of its stream and identity that was not superseded by then. |
| ResidentRecorder.KeyHeldOnce | packages/agent/src/plan-observation-contracts.ts:62-100 | A stream holds an idempotency key at most once. |
| ResidentRecorder.RepeatedRecord | packages/agent/src/plan-observation-contracts.ts:62-104 | Asking again for a standing record returns that event, except that an observation whose plan has been superseded since is refused. |
| ResidentRecorder.AnswersByTheRecords | packages/agent/src/plan-observation-contracts.ts:59-104 | What a call finds out, in terms of the records: an observation is refused as superseded exactly when the plan it names, of its own identity, has a later revision of that identity in the stream, and as unbound exactly when there is none; then the key decides. |
| ResidentRecorder.ObservationsBindCurrentPlans | packages/agent/src/plan-observation-contracts.ts:85-100 | In every run each observation stands behind the plan it names, of its stream and identity, and no later revision of it stood there before the observation. |
| ResidentRecorder.RecordedCallExactly | packages/agent/src/plan-observation-contracts.ts:115-232 | Over every interleaving the call of a recorded event fails exactly when the acknowledgement was lost, and otherwise returns that event once it has read it back. |
| ResidentRecorder.RefusedAppendExactly | packages/agent/src/plan-observation-contracts.ts:115-160 | An append is refused as a conflict exactly when its stream has grown since it was read; a refused one records nothing. |
| ResidentProjection.PlanKeyTells | packages/agent/src/plan-observation-projection.ts:106-109 | Joined plan keys agree only when task, attempt, run, revision and policy hash do. |
| ResidentProjection.ObservationKeyTells | packages/agent/src/plan-observation-projection.ts:111-114 | Joined observation keys agree only when plan event, ordinal and category do, whatever the category contains. |
| ResidentProjection.BuildProjection | packages/agent/src/plan-observation-projection.ts:42-104 | The pass over maps and the second pass compute the specified projection of any event list. |
| ResidentProjection.FlagSuperseded | packages/agent/src/plan-observation-projection.ts:82-87 | The second pass adds one superseded diagnostic for each projected observation of a superseded plan. |
| ResidentProjection.ProjectionAgreesWithRecorder | packages/agent/src/plan-observation-projection.ts:42-104 | Over every ledger the recorder builds: ready exactly when no observation names a plan of which the ledger holds a later revision with the same identity; a ready view lists exactly the recorded plans and observations in ledger order; the other three diagnostics never occur. |
| ResidentProjection.ProjectionOfEveryRun | packages/agent/src/plan-observation-projection.ts:42-104 | The same over every run of concurrent recorder calls. |
| ResidentProjection.OneCodeEach | packages/agent/src/plan-observation-projection.ts:82-87 | The second pass adds one diagnostic for each observation it flags. |
| ResidentViews.ReadyOfAnyLedger | packages/agent/src/plan-observation-projection.ts:42-104 | Of any ledger with distinct identifiers, recorded or not, the projection is ready exactly when plans of one key agree, every observation binds an earlier plan of its own identity, observations of one key agree and no observed plan has a later revision. |
| ResidentViews.ReadyShowsExactly | packages/agent/src/plan-observation-projection.ts:177-200 | A ready projection shows the first plan and the first observation of every key, in ledger order, field by field. |
| ResidentSegments.BuildSegments | packages/agent/src/plan-observation-projection.ts:317-350 | One segment is closed by each result, with the start and suspension in force there, and one open segment follows exactly when the last result is resumable or missing. |
| ResidentSegments.SegmentsJoin | packages/agent/src/plan-observation-projection.ts:338-341 | The segment after a resumable result begins with that very result event. |
| ResidentSegments.SegmentsByPosition | packages/agent/src/plan-observation-projection.ts:317-350 | By position: the k-th segment is closed by the k-th result, began behind the resumable result before it and was suspended by the last suspension since; one more is open exactly while there is no result or the last is resumable. |
| LocalModelProvider.Provider.Begin | packages/agent/src/local-model-provider.ts:171-192 | An invocation is refused by the first check that fails, the concurrency check last, and only an admitted one takes a reservation. |
| LocalModelProvider.Provider.ReleaseReservation | packages/agent/src/local-model-provider.ts:195-200 | The first release lowers the counter; later ones do nothing. |
| LocalModelProvider.Provider.Return | packages/agent/src/local-model-provider.ts:259-263 | The reservation goes with the invocation unless abandoned engine work keeps it. |
| LocalModelProvider.Provider.ResumeAfterInspection | packages/agent/src/local-model-provider.ts:208-231 | After inspection an invocation is abandoned, fails, or starts its execution. |
| LocalModelProvider.Provider.ResumeAfterExecution | packages/agent/src/local-model-provider.ts:233-258 | After execution an invocation is abandoned or returns its result. |
| LocalModelProvider.Provider.OnLateSettlement | packages/agent/src/local-model-provider.ts:201-204 | The settlement of abandoned work releases the reservation it kept. |
| LocalModelProvider.ReservationsAreExact | packages/agent/src/local-model-provider.ts:166-266 | Over all interleavings the counter equals the running invocations plus those whose abandoned work has not let go, stays within zero and the maximum, and bounds the unsettled engine works. |
| LocalModelProvider.QuiescenceFreesAll | packages/agent/src/local-model-provider.ts:166-266 | The counter is zero exactly when nothing but a new invocation can happen. |
| LocalModelProvider.ReleasedOnce | packages/agent/src/local-model-provider.ts:193-204 | Each reservation is released exactly once in every run in which it shows as released, and never twice. |
| LocalModelProvider.ResultIsFinal | packages/agent/src/local-model-provider.ts:566-593 | A returned result never changes: an abandoned invocation never turns out executed. |
| LocalModelProvider.ResultsAreExplained | packages/agent/src/local-model-provider.ts:205-258 | In every run each result follows from what the engine settled with: executed within the three budgets, blocked because it went over them or a deadline abandoned it, unavailable because the engine was; nothing is executed on an inspection that does not support the preparation. |
| LocalModelProvider.AdmittedExactly | packages/agent/src/local-model-provider.ts:171-192 | An invocation is admitted exactly when it parses, no check refuses it and a reservation is free. |
| PromptReadback.Readbacks.Create | packages/agent/src/production-prompt-readback.ts:122-135 | A new authority becomes the current one of its mount. |
| PromptReadback.Readbacks.ReserveForConsumption | packages/agent/src/production-prompt-readback.ts:190-206 | The reservation is made before any reread, and a witness that is not available is refused. |
| PromptReadback.Readbacks.RecheckAfterReread | packages/agent/src/production-prompt-readback.ts:334-346 | After the reread the authority must still be current and the bytes unchanged. |
| PromptReadback.Readbacks.CompleteConsumption | packages/agent/src/production-prompt-readback.ts:207-237 | Success needs the recheck and the exact expectations; either way the witness is consumed. |
| PromptReadback.MountKeyTells | packages/agent/src/production-prompt-readback.ts:385-387 | The JSON text that keys the map of authorities tells mounts apart. |
| PromptReadback.CurrentIsLatest | packages/agent/src/production-prompt-readback.ts:348-356 | assertCurrentAuthority passes exactly when the reported mount is the authority's and no newer authority of that mount exists. |
| PromptReadback.AttemptIsTerminal | packages/agent/src/production-prompt-readback.ts:200-206 | Once a consumption of a witness has begun, every later one fails at once and changes no witness. |
| PromptReadback.ConsumedAtMostOnce | packages/agent/src/production-prompt-readback.ts:190-237 | At most one consumption per witness ever succeeds, whatever interleaves. |
| PromptReadback.SuccessWasChecked | packages/agent/src/production-prompt-readback.ts:334-346 | A success was preceded in its own call by a recheck that found the same bytes and the authority the latest of its mount. |
| PromptReadback.NewerAuthorityKills | packages/agent/src/production-prompt-readback.ts:122-135 | A consumption that had not passed its recheck when a newer authority of the mount was created never succeeds. |
| PromptReadback.NewerAuthorityDecides | packages/agent/src/production-prompt-readback.ts:190-237 | In every run a consumption that finishes after a newer authority of its mount was created, with expectations that name the witness, succeeds if and only if it had passed its recheck by then. |
| PromptReadback.ConsumptionSucceedsExactly | packages/agent/src/production-prompt-readback.ts:190-237 | In every run a consumption that is over has succeeded exactly when its witness was available and rightly mounted at its start, its bytes were reread exactly under that mount afterwards, and the expectations name the workspace of the mount and the five facts the parser reads from those bytes. |
| PromptReadback.SuccessNamesTheWitness | packages/agent/src/production-prompt-readback.ts:207-219 | So every success named the workspace, task, run, run type, scope hash and context references its witness was issued for. |
| PromptReadback.EndConsumes | packages/agent/src/production-prompt-readback.ts:233-237 | Whatever comes out, the end of a consumption leaves its witness consumed and the call over. |
| PromptReadback.WitnessesAreIssuedExactly | packages/agent/src/production-prompt-readback.ts:142-187 | In every run a witness is added exactly by the end of an issue whose authority is mounted, whose bytes are reread unchanged and parse; it carries those bytes and what the parser reads. |
| PromptReadback.ReadsBeginExactly | packages/agent/src/production-prompt-readback.ts:239-256 | An issue begins exactly for bytes that parse under a mounted authority; a revalidation exactly for an available witness under one, and it succeeds exactly if the bytes reread are its own. |
| PromptReadback.LaterAuthorityIsTooLate | packages/agent/src/production-prompt-readback.ts:207-237 | Such a run does occur: an authority created after the recheck does not stop the consumption. |
| IdentityBootstrap.ReadyExactlyWhenGood | packages/agent/src/identity-bootstrap.ts:109-236 | A stream reads as ready exactly when it is one canonical initialization for the workspace followed by contiguous updates of the default agent. |
| IdentityBootstrap.ReadinessPreserved | packages/agent/src/identity-bootstrap.ts:299-316 | One more event keeps a stream ready exactly when it is a contiguous update of the default agent. |
| IdentityBootstrap.ReadyForOneWorkspace | packages/agent/src/identity-bootstrap.ts:109-236 | At most one workspace finds a given stream ready. |
| IdentityBootstrap.EnsureIdentity | packages/agent/src/identity-bootstrap.ts:70-107 | Undisturbed, a permitted call on an untouched stream appends exactly the canonical initialization and is ready; any other call appends nothing and is ready exactly when the stream already is for its workspace. |
| IdentityBootstrap.BootstrapRace | packages/agent/src/identity-bootstrap.ts:70-107 | With any number of racing calls and ledger errors before or after a commit: never two initializations, every finished call ready or blocked, ready only for the winning workspace, and a permitted call without ledger errors ready exactly when its workspace won. |
| IdentityBootstrap.ReadyLasts | packages/agent/src/identity-bootstrap.ts:109-236 | At any later moment exactly the winning workspace reads as ready. |
| IdentityBootstrap.ReadyByEvents | packages/agent/src/identity-bootstrap.ts:109-236 | Ready, with every literal of the contract: which first event begins a workspace, by which actors, and which events may follow. |
| IdentityBootstrap.InitializedElsewhereExactly | packages/agent/src/identity-bootstrap.ts:180-192 | A refusal says that the identity is initialized exactly when the stream was begun for the default agent of another workspace and holds contiguous updates behind that. |
| IdentityBootstrap.RaceBeginsOneWorkspace | packages/agent/src/identity-bootstrap.ts:70-107 | In every race the identity stream is untouched or begins with the canonical event of one workspace, written for a local actor. |
| IdentityBootstrap.RaceByEvents | packages/agent/src/identity-bootstrap.ts:70-107 | In every race a call is ready only if that event begins its workspace; a call by a local actor without ledger errors exactly then. |
| MemorySelection.CompareIsPreorder | packages/agent/src/memory.ts:474-477 | compareMemory orders by creation and then identifier, ties included, for any consistent text comparison. |
| MemorySelection.FindPlace | packages/agent/src/memory.ts:485-491 | The binary search finds the place behind every element that does not come after the new one. |
| MemorySelection.SelectTopMemory | packages/agent/src/memory.ts:479-498 | Selection by binary insertion equals the first elements of the stable sort, for every input and limit. |
| MemorySelection.SelectionIsTop | packages/agent/src/memory.ts:479-498 | The selection is the front of the one sorted arrangement that keeps ties in order, and precedes everything it leaves out. |
| MemorySelection.SelectionByTime | packages/agent/src/memory.ts:474-498 | In terms of the collation itself: memories stand in an order of creation and identifier, the selection is its front, and no memory left out was created before a selected one. |
| MemorySnapshot.NormalItemsKeepIds | packages/agent/src/memory.ts:314-318 | Normalising the items does not change which identifiers and hashes they hold together. |
| MemorySnapshot.CompatibilitySnapshot | packages/agent/src/memory.ts:255-287 | The compatibility snapshot is built from the selected window, with counts and provenance of the whole. |
| MemorySnapshot.CompatibilityPassesDirect | packages/agent/src/memory.ts:290-333 | It passes every window, count and provenance check of the direct path: refused exactly when one of its items is, and otherwise unchanged but for the normal form of items. |
| MemorySnapshot.ProjectedSnapshotPassesDirect | packages/agent/src/memory.ts:247-333 | The same for the snapshot of every projection and requested size, with hasMore exactly when something was left out. |
| MemorySnapshot.DirectAcceptsExactly | packages/agent/src/memory.ts:290-333 | The direct path accepts a snapshot exactly when it names its projection, every text passes its screen, order, window and counts cover what is visible, and it names exactly the events and artifacts of its items. |
| MemorySnapshot.DirectYieldsExactly | packages/agent/src/memory.ts:320-333 | What it hands on is the snapshot with every list of texts sorted, each text once, and no lifecycle references. |
| MemorySnapshot.CompatibilityShowsExactly | packages/agent/src/memory.ts:255-287 | The compatibility snapshot, field by field: the memories it shows, the counts of all, the window of one to twenty-five, whether any were left out, and the events and artifacts it names. |
| TextSets.SortedSetDependsOnMembers | packages/agent/src/memory.ts:508-533 | Dropping repetitions and sorting depends on nothing but which texts occur. |
| TextSets.TextLeqExactly | packages/agent/src/investigative-context-packs.ts:2563-2571 | Texts are compared at their first difference, and a text comes before its continuations. |
| EvidenceRows.AddBatch | packages/agent/src/investigative-context-packs.ts:1866-1871 | The rows of a batch go into the map under their identifiers, unless one repeats. |
| EvidenceRows.ReadSelectedRows | packages/agent/src/investigative-context-packs.ts:1851-1876 | Reading in batches of fifty succeeds exactly when the rows of all batches answer the references one for one and no reference repeats. |
| EvidenceRows.AnswersExactly | packages/agent/src/investigative-context-packs.ts:1873-1875 | The final test, on counts and membership alone, is equivalent to a one-for-one answer. |
| EvidenceBudget.TrimOneOptionalDetail | packages/agent/src/investigative-context-packs.ts:1787-1826 | The loop from the back trims the last item that still has an optional detail, or reports that none has. |
| EvidenceBudget.TrimTakesOne | packages/agent/src/investigative-context-packs.ts:1787-1826 | One trim takes exactly one row of the kind its omission names and keeps identities, order, active tags and a prefix of the parse jobs; there is none exactly when no detail is left. |
| EvidenceBudget.AppendedOmissionCounts | packages/agent/src/investigative-context-packs.ts:1828-1844 | Appending an omission raises the summed count of its own aggregate by its count and no other. |
| EvidenceBudget.FitBudget | packages/agent/src/investigative-context-packs.ts:1670-1693 | The loop terminates and returns what the trim order determines. |
| EvidenceBudget.FitsFirst | packages/agent/src/investigative-context-packs.ts:1670-1693 | It stops at the first state along the trim order that is not too large, and gives up only when every optional row is gone. |
| EvidenceBudget.FitsExactlyWhen | packages/agent/src/investigative-context-packs.ts:1670-1693 | It finds a payload exactly when some state of the trim order fits and no earlier one is refused. |
| EvidenceBudget.TrimsAreAccounted | packages/agent/src/investigative-context-packs.ts:1670-1844 | After n trims exactly n rows are gone, the two omission aggregates have grown by exactly the rows of their kind, other aggregates are unchanged, and every item keeps its place, active tags and a prefix of its parse jobs. |
| EvidenceBudget.TrimsFromTheBack | packages/agent/src/investigative-context-packs.ts:1791-1811 | An item is touched only when every item behind it is bare. |
| EvidenceBudget.TrimsExactly | packages/agent/src/investigative-context-packs.ts:1787-1826 | Which row goes: the last parse job of the last item with anything optional or, without one, its first removed tag; and what its omission says. Nothing goes exactly when nothing is optional. |
| EvidenceBudget.MergedSamplesExactly | packages/agent/src/investigative-context-packs.ts:1838-1849 | A merged aggregate keeps the first three of both sample lists in sample order, or all if there are fewer. |
| SelectionManifest.CanonicalIsIdempotent | packages/agent/src/investigative-context-packs.ts:2500-2537 | Canonicalising a canonical manifest changes nothing. |
| SelectionManifest.CanonicalAgreesIff | packages/agent/src/investigative-context-packs.ts:2500-2571 | Two manifests have the same canonical form exactly when their headers agree and, for every comparison key, so do the sequences of normalised references and omissions under it. |
| SelectionManifest.CanonicalForgetsOrder | packages/agent/src/investigative-context-packs.ts:2500-2571 | With pairwise different keys any permutation of references and omissions gives the same canonical form. |
| SelectionManifest.EventOrderIsForgotten | packages/agent/src/investigative-context-packs.ts:2519-2519 | Source event identifiers may come in any order. |
| SelectionManifest.SampleOrderIsForgotten | packages/agent/src/investigative-context-packs.ts:2530-2534 | Sample references may come in any order if their keys differ. |
| SelectionManifest.TiesKeepTheirOrder | packages/agent/src/investigative-context-packs.ts:2539-2544 | With equal keys order matters: references that differ only in a field the comparator ignores give different canonical forms when swapped. |
| SelectionManifest.CanonicalKeepsHash | packages/agent/src/investigative-context-packs.ts:709-720 | An accepted manifest keeps its hash in canonical form, and the manifest of a built payload always passes its own hash check. |
| SelectionManifest.CanonicalIsInOrder | packages/agent/src/investigative-context-packs.ts:2500-2571 | What the canonical form is: the same header, references in order of sort key, kind, identifier and hashes, omissions in order of reason, kind and key, and inside them event identifiers and samples in order. |
| ContextPackMatching.CollectRefs | packages/agent/src/context-packs.ts:301-309 | The first pass reports the first reference that does not parse or repeats a key. |
| ContextPackMatching.CollectPacks | packages/agent/src/context-packs.ts:311-326 | The second pass reports the first pack that is unbranded, extra or a repetition, and otherwise holds every pack under its key. |
| ContextPackMatching.MatchForExecution | packages/agent/src/context-packs.ts:297-331 | The outcome is the first error in that order, or the packs in the order of the references. |
| ContextPackMatching.MatchesExactly | packages/agent/src/context-packs.ts:297-331 | Matching succeeds exactly when the references parse, their keys are distinct, and the branded packs are a permutation of them by key. |
| ContextPackMatching.ResultForgetsPackOrder | packages/agent/src/context-packs.ts:297-331 | The result uses every pack once and does not depend on the order in which they came. |
| ContextPackMatching.KeysTellReferences | packages/agent/src/context-packs.ts:632-634 | Keys agree exactly when the references are the same JSON value. |
| ApprovalQueue.LastByRequest | packages/agent/src/approval-queue.ts:393-399 | The overwritten map holds exactly the last element of every request. |
| ApprovalQueue.ClassifyRequest | packages/agent/src/approval-queue.ts:210-266 | One round of the loop computes the bucket and the item that the specification gives. |
| ApprovalQueue.BuildQueue | packages/agent/src/approval-queue.ts:183-278 | The seven arrays hold the items of the requests of their bucket in request order; the build throws exactly when some class is not supported. |
| ApprovalQueue.EveryRequestLandsOnce | packages/agent/src/approval-queue.ts:210-266 | Each request lands in exactly one bucket. |
| ApprovalQueue.BucketKeepsOrder | packages/agent/src/approval-queue.ts:210-266 | Positions in a bucket rise with positions in the input. |
| ApprovalQueue.ResumableExactly | packages/agent/src/approval-queue.ts:253-265 | Resumable exactly when nothing terminal is recorded, the last approval names the current and requested hash and, if any, the required class, and no lock applies. |
| ApprovalQueue.PendingExactly | packages/agent/src/approval-queue.ts:240-251 | Pending exactly when nothing is recorded, the preview is current and no lock applies. |
| ApprovalQueue.BucketByConditions | packages/agent/src/approval-queue.ts:280-318 | An undecided request is stale before it is blocked and blocked before it is open, by three independent conditions. |
| ApprovalQueue.AddedLocksOnlyBlock | packages/agent/src/approval-queue.ts:374-391 | Adding locks to an accepted input: the build throws exactly when a lock names a class the queue does not support; otherwise a request moves only from pending or resumable to blocked, and that exactly when a lock now applies. |
| ApprovalQueue.UnsupportedLockThrows | packages/agent/src/approval-queue.ts:625-641 | An added lock that names human-review makes the build throw, whatever the input. |
| ApprovalQueue.AliasesChangeNothing | packages/agent/src/approval-queue.ts:635-662 | Replacing any class anywhere by its legacy alias changes nothing in the queue. |
| ApprovalQueue.LegacyNamesAreAliases | packages/agent/src/approval-queue.ts:643-649 | The three legacy names stand for their canonical classes. |
| ApprovalPlaces.QueueListsExactly | packages/agent/src/approval-queue.ts:183-318 | Each of the seven arrays lists exactly the requests that belong there: completed with a recorded completion; failed with a failure and no completion; denied with a denial and neither; and the four open cases by last approval, hashes, class and locks. Each item carries the last such decision by position, the locks that apply and exactly its reasons. |
| ApprovalPlaces.BuildsExactlyWhenSupported | packages/agent/src/approval-queue.ts:183-208 | The queue is built exactly for inputs whose classes it supports: none is "none", and human review is asked for by trusted requests and decided for those only. |
| ApprovalPlaces.NormalIsCanonicalForm | packages/agent/src/approval-queue.ts:635-662 | The queue works on the input with every class under the name it stands for, and nothing else changed. |
| ApprovalCockpit.ByteTransferProvenance | packages/agent/src/approval-cockpit.ts:661-675 | The two flags find out whether there is a source or event and an artifact. |
| ApprovalCockpit.Sift | packages/agent/src/approval-cockpit.ts:555-572 | Open items without provenance are pushed behind the blocked ones, the rest stay in order. |
| ApprovalCockpit.EnrichQueue | packages/agent/src/approval-cockpit.ts:546-583 | The cockpit queue is the approval queue with exactly those items moved. |
| ApprovalCockpit.CountsAddUp | packages/agent/src/approval-cockpit.ts:387-396 | The five counts of the summary add up to the number of requests. |
| ApprovalCockpit.RequestIsShown | packages/agent/src/approval-cockpit.ts:546-611 | Every request is shown in its final bucket with its reasons extended by missing provenance. |
| ApprovalCockpit.CockpitResumableExactly | packages/agent/src/approval-cockpit.ts:563-572 | Resumable in the cockpit exactly when resumable in the queue and carrying provenance. |
| ApprovalCockpit.CockpitLocksOnlyBlock | packages/agent/src/approval-cockpit.ts:376-385 | In the cockpit, whose locks come from the status, added or newly active locks never make the build throw and move only open requests, to blocked. |
| ApprovalCockpit.ApprovableExactly | packages/agent/src/approval-cockpit.ts:600-613 | approvable holds exactly for items that are open in the cockpit and for terminal items that carry provenance. |
| ApprovalPlaces.CockpitShowsExactly | packages/agent/src/approval-cockpit.ts:546-613 | Each array of the cockpit lists exactly the requests that belong there, open ones without provenance among the blocked, with their reasons and with approvable exactly when provenance is there and nothing stands in the way. |
| ApprovalPlaces.SummaryCountsExactly | packages/agent/src/approval-cockpit.ts:387-396 | Each count of the summary is the number of requests that belong there. |
| ApprovalPlaces.CockpitLockedExactly | packages/agent/src/approval-cockpit.ts:376-385 | A request is locked in the cockpit exactly while some active lock of the status is of another kind than the byte transfer, or the request is one. |
| DomainAttestation.AddedIsSuffix | packages/agent/src/domain-execution-dispatcher.ts:636-640 | For an append-only ledger with unique identifiers the added events are exactly the suffix, in order. |
| DomainAttestation.ModeExactly | packages/agent/src/domain-execution-dispatcher.ts:624-729 | Each evidence mode, exactly: new events when the claim is the suffix in order, an idempotent replay when the suffix is empty and the events old, projection artifacts when nothing was written and the approved artifacts came out. |
| DomainAttestation.ForeignAppendFails | packages/agent/src/domain-execution-dispatcher.ts:624-729 | One added event that the result does not claim makes attestation fail in every mode. |
| DomainAttestation.HonestClaimHolds | packages/agent/src/domain-execution-dispatcher.ts:705-714 | An execution that claims exactly its own events is attested as new exactly when nobody else appended meanwhile. |
| DomainAttestation.NewEvidenceExactly | packages/agent/src/domain-execution-dispatcher.ts:624-729 | Attested as new exactly when the claim names the appended events in order and they are the evidence of the catalog entry: one event of its type, or for the legacy entry any number that its checks accept. |
| DomainAttestation.OldEvidenceExactly | packages/agent/src/domain-execution-dispatcher.ts:624-729 | Attested as an idempotent replay exactly when nothing was appended and the claim names such evidence among the old events. |
| DomainAttestation.ArtifactEvidenceExactly | packages/agent/src/domain-execution-dispatcher.ts:636-673 | Attested as projection artifacts exactly for entry seven, with nothing written and the approved artifacts of the one projection. |

## Left out

- ResidentLoopExecution.AtMostOneAttemptPerRevision: covers one loop instance and its restarts; two loop instances running for the same identity at once are not modelled, because the mounted authority that would exclude them is not part of this model.
- ResidentLoopAuthorization.ExecutionIsAuthorized: the gateway's own approval bookkeeping is not part of this model; the record it issues is taken as answered.
- ResidentStore.StoreSafety: only this store writes resident V2 events; payloads are compared as typed records, so a field that is undefined and one that is null, which the store's own canonicalJson prints alike (plan-observation-contracts.ts:624-632), are not distinguished; the parser may rewrite a payload, and the model starts from the parsed one.
- ResidentStoreKeys.KeysTellSubjects: for tool steps, suspensions and results the joined texts carry no colon, which the identifiers of the schema never do; with colons two of them can share a key (`ResidentStoreKeys.ColonsMayMislead`). Plans and observations need no such condition.
- ResidentRecorder.RunKeepsRecorder: of the event schema only the absence of a vertical bar in task, attempt, run and event identifiers is kept.
- IdentityBootstrap.BootstrapRace: other writers are assumed to leave the identity stream alone until it is initialized and then only to update the default agent.
- ResidentSecondAdvance.SecondAdvanceOnlyReplays: the replay read is taken to be exactly the five events in ledger order; the event and sequence validators, which are not part of this model, are taken to accept them.
- ResidentReplay.ReplayRoundTrip: the verdict of the event and sequence validators is taken as given in the same way.
- CanonicalJsonProofs.RoundTrip: numbers are integers; fractions, exponents and numbers of magnitude 1e21 and more are not modelled.
- MemorySelection.SelectTopMemory: localeCompare is any comparison whose sign is consistent and transitive; its actual collation is not modelled.
- EvidenceBudget.FitsFirst: the size of a payload, and whether its parser accepts it, is a function of items and omissions.
- PromptReadback.SuccessWasChecked: envelopes are parsed by an unspecified function of their bytes, and expectations are compared as texts.
- The contents, dates and hashes of a suspension checkpoint (bounded-agent-loop.ts:1528-1618), and whether the mounted authority can write it.
- A resume after an approval-required suspension: its checkpoint carries no logical locator, so the code, and the model, refuse it.
- Reading canonical material happens within the same step as the gateway answer it belongs to; it is synchronous in the code.
- Provider posture, workflow descriptors, policies and authority bindings are single JSON values that are copied and compared whole.
- Schemas, regular expressions and secret screening, frozen and proxy checks on host objects, SHA-256, random identifiers and timers.
- The V2 projection across several streams (plan-observation-projection.ts:245-307); segments are proved for one stream.
- The in-process ledger's batch append (event-ledger.ts:89-119), the context pack registry, graph and governance packs, the tool gateway, network providers, workflow runners, labels and guidance texts.
- Capability creation and the legacy candidate checks of the domain dispatcher; the latter are a verdict in DomainAttestation.
