# TradingNG: verified model

TradingNG runs stock assessments. Its gateway turns chat-completion requests into
structured prompts for an app-server process; its platform stores assessments, waits
for their data, audits what they saw and lists what they found; a few scripts drive
batches and keep the identity realm in order. This project models the parts of that
code with the most branching and state, and proves what they promise.

`dafny verify dfyconfig.toml` checks everything. The project needs no other library.

## How the files fit together

- `Outcomes`, `Sorting`, `Json`: options and results, the stable sort and selection, JSON values with the compact printer and a decoder.
- Gateway, schemas: `JsonPointer` resolves references; `SchemaSemantics` says what a schema accepts; `SchemaExpansion` is the expansion without caps, `SchemaVisitor` the visitor with its budget; `SchemaMeaning`, `SchemaRefFree` and `SchemaReach` prove what the expansion keeps, what it removes and when it exists, `SchemaCharges` what it is charged for and `SchemaDefects` what an error names; `Preflight` is the explicit-stack walk, `PreflightSpots` says over the values alone what it accepts, and `ToolSchemas` the validation of all tools of a request.
- Gateway, answers: `OutputPolicy` compiles the tool policy into a schema, `ResponseAdapter` consumes it, `PromptFrame` escapes and frames the request.
- Gateway, process: `StderrLog` splits lines, `AppServerTransport` matches answers to requests, `TurnRuntime` settles turns, `Overlap` is the audit sweep.
- Platform: `Runs` is the transition table; `ManifestHash` and `DataReadiness` are the lease and fencing protocol as a step relation, `DataReadinessRepository` its methods; `AssessmentStore`, `AssessmentLifecycle` and `AssessmentRepository` are the relational store; `RunPages` and `RunCursor` page through runs, `RunListing` joins them; `MemorySnapshot` selects past runs; `StatementIntegrity` and `FilingAvailability` filter and audit statements.
- Scripts: `SequentialBatch` and `KeycloakSync`; `BatchOnPlatform` runs the batch driver against the assessment store.

Code that updates objects is modelled by classes whose methods are proved equal to
functions on values; the lemmas are about those functions and about all runs of them.
A database transaction is one atomic step. Clocks, identifiers, regular expressions,
SHA-256 and remote services are parameters; the hash is injective where a lemma needs it.

## What the proofs found

- The manifest hash depends on the order of items that share product, instrument and version, and an item without an instrument counts as instrument 0 there.
- Escaping angle brackets can turn a malformed text into a well-formed one; the printer never produces such a text.
- A date is not posted at most once: it can be posted again exactly when the platform did not answer the post with the one run asked for or its record was not saved (`SequentialBatch.PostRepeatsExactlyWhenNotRecorded`, with `LostPostIsRepeated` and `UnsavedPostIsRepeated`). The idempotency key makes the repeats harmless: no date is ever started twice (`BatchOnPlatform.EveryDateIsStartedOnce`).
- Valid calls can still have no response: arguments such as `1e999` decode and meet their schema but cannot be printed (`ResponseAdapter.HugeNumberIsUnserializable`).
- A usage report with an infinite number leaves its turn open, where every other malformed report settles it (`TurnRuntime.OverflowLeavesTurnOpen`).
- A filing whose form is a list or an object raises an error that neither the client nor the composite catches.
- The overlap sweep reports too little when an exchange that ends before it starts covers every busiest time, and only then (`Overlap.PeakIsMostActiveExactlyWhen`, `Overlap.ReversedExchangeHides`).
- A delete keeps every foreign key only while artifacts are named by rows of their own run alone; no column of the schema says so.
- Printed actions of a plan parse back exactly when no user with a legacy role has an empty id; else the live pass stops at that user (`KeycloakSync.PlannedActionsParse`, `KeycloakSync.LivePassConverges`).

## Model

| member | source | states |
|---|---|---|
| `SchemaMeaning.ExpansionKeepsMeaning` | gateway/src/codex_gateway/request_adapter.py:164-258 | Whenever a tool schema expands, the result accepts exactly the JSON instances that the original accepts with its references resolved against its root, for every meaning of the remaining keywords and of regular expressions; siblings of `$ref` do not count, and the expanded schema needs no root any more. |
| `SchemaMeaning.JumpKeepsMeaning` | gateway/src/codex_gateway/request_adapter.py:206-213 | A reference node means what the expansion of its target means, even when it has siblings. |
| `SchemaMeaning.ImagesKeepMeaning` | gateway/src/codex_gateway/request_adapter.py:215-256 | An object schema and its expansion agree on an instance when every keyword and its image agree; the dropped definition keywords constrain nothing. |
| `SchemaMeaning.GetImage` | gateway/src/codex_gateway/request_adapter.py:215-254 | Looking a keyword up in the expanded object finds exactly the expansion of the keyword in the original. |
| `SchemaRefFree.ExpandedIsRefFree` | gateway/src/codex_gateway/request_adapter.py:199-258 | The expanded schema holds no `$ref` in any schema position. |
| `SchemaRefFree.PropertiesSurvive` | gateway/src/codex_gateway/request_adapter.py:219-223 | The properties of an expanded object keep their names and order, a property called `$ref` included, and each gets the expansion of its own schema. |
| `SchemaRefFree.ExpansionIsIdempotent` | gateway/src/codex_gateway/request_adapter.py:164-258 | Expanding an expanded schema succeeds and changes nothing. |
| `SchemaReach.ExpandsExactlyWhenChainsAreSound` | gateway/src/codex_gateway/request_adapter.py:199-213 | Without the numeric caps a schema expands if and only if on every chain of visits from the root each node is a schema, each reference is a text that resolves locally, and no reference text occurs twice. |
| `SchemaVisitor.InlineLocalRefs` | gateway/src/codex_gateway/request_adapter.py:164-258 | The recursive visitor with its shared budget succeeds if and only if the expansion exists and its cost fits into what is left of the node, depth and byte limits; then it returns the expansion, has charged the sizes of all schemas in its schema positions and at least one node for each, none of them deeper than the limit, so the result itself is within the byte limit. An error is either a limit, which the cost really breaks when the expansion exists, or a defect that leaves no expansion and that the last node of some chain of visits from the root has. |
| `SchemaVisitor.VisitSchema` | gateway/src/codex_gateway/request_adapter.py:199-256 | One node of the visitor: the same equivalence at every depth and for every set of open references, a charge that pays for all schemas of the output, and errors that name a broken limit or a defect at the end of a chain of visits. |
| `SchemaCharges.ChargeIsOutput` | gateway/src/codex_gateway/request_adapter.py:34-256 | Over the output alone: the bytes charged for a visit are the sum of the encoded sizes of all schemas in schema positions of its output, the nodes are at least their number, and the height reaches the level of each. |
| `SchemaCharges.ChargeWithoutReferences` | gateway/src/codex_gateway/request_adapter.py:34-256 | A schema without references is charged exactly: its schemas, their greatest level and their sizes. |
| `SchemaCharges.JumpIsCharged` | gateway/src/codex_gateway/request_adapter.py:199-213 | A reference costs one node and one level more than its target, and no bytes of its own. |
| `SchemaVisitor.ExpansionBudget.ChargeNode` | gateway/src/codex_gateway/request_adapter.py:34-43 | Raises the depth error before the node error and then counts nothing; else counts the node, also one that breaks the node limit. |
| `SchemaVisitor.ExpansionBudget.ChargeOutput` | gateway/src/codex_gateway/request_adapter.py:45-55 | Refuses one output over the byte limit without counting it; else counts it and refuses when the sum is over the limit. |
| `SchemaExpansion.JumpShrinks` | gateway/src/codex_gateway/request_adapter.py:206-213 | Following a reference that is not on the stack leaves strictly fewer references of the root unopened, which with the size of the node is why the unlimited expansion ends. |
| `ToolSchemas.ValidateToolSchemas` | gateway/src/codex_gateway/request_adapter.py:261-277 | All tools of a request pass if and only if names differ, each schema passes the preflight and the meta-schema, expands and passes the meta-schema again, and one budget has room for all expansions together; an error is true of the first tool that is refused. |
| `ToolSchemas.LimitsHoldTogether` | gateway/src/codex_gateway/request_adapter.py:261-277 | All schemas of all expanded tools of a request together are within the node, byte and depth limits, and for tools without references the limits ask for nothing more. |
| `JsonPointer.DecodePointerSegment` | gateway/src/codex_gateway/request_adapter.py:149-161 | The index loop decodes a segment to the token whose encoding it is, or raises exactly when a tilde is not followed by 0 or 1. |
| `JsonPointer.DecodeEncode` | gateway/src/codex_gateway/request_adapter.py:149-161 | Decoding an encoded token gives the token back, and an encoded token holds no slash (section 4 of RFC 6901). |
| `JsonPointer.EncodeDecode` | gateway/src/codex_gateway/request_adapter.py:149-161 | A slash-free segment that decodes is the encoding of what it decodes to. |
| `JsonPointer.SplitJoin` | gateway/src/codex_gateway/request_adapter.py:173 | Splitting joined slash-free segments gives the segments back. |
| `JsonPointer.JoinSplit` | gateway/src/codex_gateway/request_adapter.py:173 | Joining the pieces of a split text gives the text back, and no piece holds a slash. |
| `JsonPointer.IndexIsUnique` | gateway/src/codex_gateway/request_adapter.py:180-194 | An array element is named by exactly one segment, the plain decimal of its position, and a segment names at most one position. |
| `JsonPointer.PointerNames` | gateway/src/codex_gateway/request_adapter.py:167-197 | Every sequence of tokens has a pointer, and it resolves to what the tokens lead to. |
| `JsonPointer.ResolveExactly` | gateway/src/codex_gateway/request_adapter.py:167-197 | A reference resolves to a value if and only if it is the pointer of some tokens that lead to that value. |
| `JsonPointer.ResolvePointer` | gateway/src/codex_gateway/request_adapter.py:167-197 | The loop of `resolve` finds the value exactly when the reference resolves; the external error comes out exactly for references that are not local, the escape error where the walk meets a segment that does not decode, and the unresolvable error where it meets a token that leads nowhere. |
| `JsonPointer.WalkStopsOnce` | gateway/src/codex_gateway/request_adapter.py:173-196 | A walk stops at one segment only, and for one reason. |
| `Preflight.PreflightRawSchema` | gateway/src/codex_gateway/request_adapter.py:64-105 | The explicit-stack walk over containers that may hold each other accepts a value if and only if the tree it unfolds to has its nodes, depth and bytes within the limits and no container twice; every error names something really broken, so the early cut-off rejects no schema within the limits. |
| `Preflight.VisitContainer` | gateway/src/codex_gateway/request_adapter.py:79-101 | Opening a container leaves visited plus pending nodes within the node limit, refuses only with a cause, and keeps the balance of visited and pending parts. |
| `Preflight.CyclicIsRefused` | gateway/src/codex_gateway/request_adapter.py:81-85 | A value from which a container that holds itself can be reached is never accepted. |
| `Preflight.AcceptedIsWhole` | gateway/src/codex_gateway/request_adapter.py:64-105 | What is accepted was measured in full: unfolding it further changes nothing. |
| `PreflightSpots.AcceptableOverSpots` | gateway/src/codex_gateway/request_adapter.py:64-105 | Over the values of the unfolded schema: it is acceptable if and only if there are at most 10000 of them, none inside more than 128 containers, their weights add up to at most a megabyte, and no container occurs twice. |
| `Preflight.ContainerVisited` | gateway/src/codex_gateway/request_adapter.py:79-101 | Replacing a container on the stack by its children keeps visited plus pending equal to the measure of the whole schema. |
| `Preflight.ContainerSeen` | gateway/src/codex_gateway/request_adapter.py:82-85 | A container on top of the stack that was seen before occurs at least twice in the schema; a new one keeps seen plus pending containers equal to the containers of the schema. |
| `Preflight.ItemsPushed` | gateway/src/codex_gateway/request_adapter.py:96-101 | Pushing the children of a list one level deeper measures what the list inside measured. |
| `OutputPolicy.OutputSchemaIsPolicy` | gateway/src/codex_gateway/request_adapter.py:288-338 | The generated output schema accepts an envelope if and only if the tool policy (forced, forbidden or free, single or parallel, selected names) allows it. |
| `OutputPolicy.CallSchemaIsPolicy` | gateway/src/codex_gateway/request_adapter.py:129-146 | The call schema accepts exactly the objects with a selected name and a text of arguments. |
| `OutputPolicy.CallsAccepts` | gateway/src/codex_gateway/request_adapter.py:309-315 | The list schema accepts exactly the non-empty lists of good calls, of length one when parallel calls are off. |
| `OutputPolicy.MessageSchemaIsPolicy` | gateway/src/codex_gateway/request_adapter.py:295-308 | The message schema accepts exactly the messages with a text and no calls. |
| `OutputPolicy.ToolSchemaIsPolicy` | gateway/src/codex_gateway/request_adapter.py:316-325 | The tool schema accepts exactly the tool uses of the policy. |
| `OutputPolicy.ClosedObjectAccepts` | gateway/src/codex_gateway/request_adapter.py:333-338 | An object schema with all properties required and no others accepts exactly the objects with those keys and good values. |
| `OutputPolicy.SelectionMeaning` | gateway/src/codex_gateway/request_adapter.py:108-126 | Each of the three refusals comes out exactly for its cause; otherwise the selected tools are all declared ones, or for a named choice exactly those with the name in the order of declaration, or none when calls are forbidden; forced and forbidden exactly as the choice says. |
| `OutputPolicy.SchemaAcceptsWhatRequestAllows` | gateway/src/codex_gateway/request_adapter.py:108-146 | From the request itself: when the tool choice is not refused, the generated schema accepts exactly the envelopes that the request allows. |
| `ResponseAdapter.ToChatCompletion` | gateway/src/codex_gateway/response_adapter.py:45-120 | Behind a schema validator that agrees with the output schema none of the four defensive policy errors comes out. The response is refused as invalid exactly when the envelope is, for its arguments exactly when some call does not decode or does not meet the last tool of its name, and as unserializable exactly when all calls do and some arguments hold a number that is infinite in Python; otherwise a message gives its content and a tool use its calls in order, with callable names, arguments that decode to what the model wrote and meet the tool of that name, and the fitting finish reason. |
| `ResponseAdapter.HugeNumberIsUnserializable` | gateway/src/codex_gateway/response_adapter.py:92-110 | An envelope with the arguments `1e999` is allowed by the policy and its call is good, but it cannot be printed again. |
| `ResponseAdapter.AllowedPassesChecks` | gateway/src/codex_gateway/response_adapter.py:59-69 | No envelope that the policy allows trips one of the four policy checks. |
| `ResponseAdapter.DecodeCalls` | gateway/src/codex_gateway/response_adapter.py:70-88 | The call loop succeeds if and only if the arguments of every call decode and meet the parameters of the tool with the name of the call, of the last one if there are more, and keeps names and arguments in order. |
| `ResponseAdapter.Parameters` | gateway/src/codex_gateway/response_adapter.py:70 | The lookup finds the parameters of the tool with the name behind which no other has it, and none exactly when no tool has the name. |
| `ResponseAdapter.GoodCallsByTools` | gateway/src/codex_gateway/response_adapter.py:70-79 | Where tool names differ, a call passes if and only if its arguments decode and some tool with its name takes them. |
| `ResponseAdapter.EnvelopeParts` | gateway/src/codex_gateway/response_adapter.py:59-79 | The result, the calls, their names and their arguments are what an allowed envelope holds under those keys. |
| `ResponseAdapter.PrintCalls` | gateway/src/codex_gateway/response_adapter.py:92-110 | Printing the decoded calls fails if and only if some arguments hold an infinite number, and else prints them in order. |
| `PromptFrame.EscapedHasNoAngles` | gateway/src/codex_gateway/request_adapter.py:366-367 | The escaped request holds neither `<` nor `>`. |
| `PromptFrame.EscapeKeepsMeaning` | gateway/src/codex_gateway/request_adapter.py:366-367 | A text that decodes still decodes to the same value after the escape, for any mix of backslashes, quotes and brackets (section 7 of RFC 8259). |
| `PromptFrame.FrameDecodes` | gateway/src/codex_gateway/request_adapter.py:366-386 | For all request data, cutting the prompt at its tags gives the escaped text of the request, and decoding it gives exactly the request back if and only if the request is JSON, that is without NaN and infinite numbers. |
| `PromptFrame.EscapeCanRepairMalformedText` | gateway/src/codex_gateway/request_adapter.py:367 | The condition is needed: escaping turns one malformed text into a well-formed one. |
| `Json.PrintedTextDecodes` | gateway/src/codex_gateway/request_adapter.py:366 | The compact printed form of a JSON value whose objects are dicts decodes to that value. |
| `Json.PrintIsCompact` | gateway/src/codex_gateway/request_adapter.py:45-55 | The printed form has no space of its own: there is one exactly when some number, text or key holds one. The byte limits count this form. |
| `Json.DictHoldsLast` | gateway/src/codex_gateway/response_adapter.py:55 | Looking a key up in a decoded object finds the last pair of the text with that key. |
| `Json.DecodedTextPrints` | gateway/src/codex_gateway/response_adapter.py:96-105 | What a text decodes to can be printed, and the printed text decodes to the same value. |
| `Runs.HistoryShape` | platform/src/tradingng_platform/domain/runs.py:30-85 | Along every chain of allowed moves waiting for data occurs only first and a terminal status only last. |
| `ManifestHash.HashIgnoresOrderExactlyWhenKeysIdentify` | platform/src/tradingng_platform/data_readiness/service.py:13-36 | The manifest hash does not depend on the order of the items if and only if product, instrument (a missing one counts as 0) and version tell different items apart. |
| `ManifestHash.KeysAreColumns` | platform/src/tradingng_platform/data_readiness/service.py:26-33 | Two items have one sort key exactly when product, version and instrument, a missing one as 0, are equal. |
| `ManifestHash.HashPinsContent` | platform/src/tradingng_platform/data_readiness/service.py:10-50 | Equal hashes mean the same request, the same date and the same items. |
| `DataReadiness.StepKeepsSound` | platform/src/tradingng_platform/data_readiness/repository.py:33-198 | Claims, late applies, cancels, submissions and worker moves all keep the invariant: references resolve, a run waits exactly when its requirement is waiting, only waiting rows are leased, ready rows and their configuration name one verified hash, issued claims differ in version; and rows change only with a greater version. |
| `DataReadiness.ReachableIsSound` | platform/src/tradingng_platform/data_readiness/repository.py:33-198 | Every state that any interleaving reaches from empty tables satisfies that invariant. |
| `DataReadiness.VersionsOnlyGrow` | platform/src/tradingng_platform/data_readiness/repository.py:64 | Over every run a requirement row that differs at the end has a strictly greater version. |
| `DataReadiness.FencedClaimChangesNothing` | platform/src/tradingng_platform/data_readiness/repository.py:201-210 | Applying a fenced claim changes no row, adds no event and reports failure. |
| `DataReadiness.FenceSuffices` | platform/src/tradingng_platform/data_readiness/repository.py:93-108 | In every sound state an apply takes effect if and only if the fence lets it through: the status of the run and the existence of its request never fail behind the fence. |
| `DataReadiness.OneClaimHolds` | platform/src/tradingng_platform/data_readiness/repository.py:201-210 | Of all claims ever issued on a requirement at most one is not fenced. |
| `DataReadiness.EffectFencesAllClaims` | platform/src/tradingng_platform/data_readiness/repository.py:213-217 | An apply that takes effect moves its row past every claim issued on it so far, its own included. |
| `DataReadiness.EffectIsFinal` | platform/src/tradingng_platform/data_readiness/repository.py:73-198 | After a claim has taken effect no claim issued on that row so far takes effect in any continuation, so each takes effect at most once. |
| `DataReadiness.ClaimFencesOlderClaims` | platform/src/tradingng_platform/data_readiness/repository.py:62-71 | A new claim fences all claims issued on the row before it. |
| `DataReadiness.OvertakenClaimIsDead` | platform/src/tradingng_platform/data_readiness/repository.py:62-71 | A claim overtaken by a later claim never takes effect in any continuation. |
| `DataReadiness.QueuedOnlyWithVerifiedManifest` | platform/src/tradingng_platform/data_readiness/repository.py:93-130 | A waiting run is queued only by an accepted answer, and then the requirement, the request configuration and the recomputed hash of the manifest agree. |
| `DataReadiness.WaitingIsLeftOnce` | platform/src/tradingng_platform/assessments/service.py:424-431 | A run that does not wait for data never waits again, over every continuation. |
| `DataReadiness.MovesKeepWaitsTogetherExactlyWhen` | platform/src/tradingng_platform/domain/runs.py:30-36 | After an allowed move of a run by any other part, runs and requirements go on waiting together if and only if the moved run did not wait. |
| `DataReadiness.CancelClosesRow` | platform/src/tradingng_platform/assessments/repository.py:558-570 | Cancelling a waiting run withdraws exactly its one waiting requirement, with a greater version and no lease. |
| `DataReadiness.CancelDoes` | platform/src/tradingng_platform/assessments/service.py:411-452 | A cancel ends a queued or waiting run, asks a run at work to stop, leaves every other run alone, appends its one event, and withdraws exactly the waiting rows of a run that waited. |
| `DataReadiness.EventsAreNumbered` | platform/src/tradingng_platform/data_readiness/repository.py:225-239 | Over every run the events of each run are numbered 1, 2, 3 and so on without a gap. |
| `DataReadinessRepository.DataReadinessRepository.ClaimDue` | platform/src/tradingng_platform/data_readiness/repository.py:33-71 | Hands out no claim if and only if every due row is held by another transaction; else leases the first due row that is not, in the order of the query, and changes nothing else. |
| `DataReadinessRepository.DataReadinessRepository.ApplyWaiting` | platform/src/tradingng_platform/data_readiness/repository.py:73-91 | The new tables and the answer are those of the step model: progress and fingerprint stored, lease released, an event only when the fingerprint changed. |
| `DataReadinessRepository.DataReadinessRepository.ApplyReady` | platform/src/tradingng_platform/data_readiness/repository.py:93-130 | The new tables and the answer are those of the step model, with every row, the configuration and both events. |
| `DataReadinessRepository.DataReadinessRepository.Finish` | platform/src/tradingng_platform/data_readiness/repository.py:162-198 | The new tables and the answer are those of the step model for a rejection or an integrity failure. |
| `DataReadinessRepository.DataReadinessRepository.ReleaseTransient` | platform/src/tradingng_platform/data_readiness/repository.py:151-160 | The new tables and the answer are those of the step model: the error noted, the lease released. |
| `DataReadinessRepository.ReconcileOne` | platform/src/tradingng_platform/data_readiness/service.py:69-100 | One pass claims a due row if and only if one is due and not held by another transaction, and leaves exactly the tables of the decision on the service's answer, or the claimed row alone when another error escapes the pass. Said over the answer: a client error or a rejection that may be retried leaves run and row waiting until the named time, a permanent rejection leaves the run failed and the row rejected, a doubtful manifest needs attention, a verified one queues the run, and no other row, run or configuration changes. |
| `DataReadiness.DecisionsHaveTheirCauses` | platform/src/tradingng_platform/data_readiness/service.py:69-100 | Each decision is taken exactly for its cause: waiting for a waiting answer, a retry with its code and time for a client error or a retryable rejection, a rejection for a permanent error or none, each attention code for its defect of the manifest, acceptance for three agreeing hashes. |
| `DataReadiness.StepFollowsAnswer` | platform/src/tradingng_platform/data_readiness/repository.py:73-211 | In every sound state a claim that is not fenced leaves run, row, configuration and event log exactly as the answer asks, and touches nothing else. |
| `DataReadiness.LeaseExcludes` | platform/src/tradingng_platform/data_readiness/repository.py:36-71 | A claimed row passes the fence of its claim and is due again, while nobody changes it, exactly when the lease has run out; other rows are due as before. |
| `DataReadiness.PutOffIsDueAgain` | platform/src/tradingng_platform/data_readiness/repository.py:151-160 | A row that was put off is due again exactly from the named time on. |
| `DataReadiness.DueInSoundState` | platform/src/tradingng_platform/data_readiness/repository.py:36-55 | In a sound state the join with the run never holds a row back: a waiting row is due exactly when its poll time has come and no lease is running. |
| `AssessmentStore.RemovalsAreSafeExactlyWhen` | platform/src/tradingng_platform/assessments/repository.py:409-438 | The foreign keys hold after every one of the fourteen removals of a delete if and only if no run retries or re-assesses this one and no row of another run names one of its artifacts. |
| `AssessmentStore.EachRemovalKeepsForeignKeys` | platform/src/tradingng_platform/assessments/repository.py:409-438 | Under that condition the foreign keys hold after each single removal, not only at the end. |
| `AssessmentStore.DroppingParentsKeepsForeignKeys` | platform/src/tradingng_platform/assessments/repository.py:440-462 | The request, the batch and the snapshot go one after the other, and the foreign keys hold each time. |
| `AssessmentStore.DeleteTakesExactlyTheGraph` | platform/src/tradingng_platform/assessments/repository.py:400-463 | A delete takes exactly the rows of the run, the request and batch that nothing else uses, and the snapshot that no other run uses; every other row stays as it is. |
| `AssessmentStore.OtherRunsUntouched` | platform/src/tradingng_platform/assessments/repository.py:400-463 | No row of another run is removed or changed. |
| `AssessmentStore.SharedSnapshotsAreKept` | platform/src/tradingng_platform/assessments/repository.py:451-462 | A configuration snapshot outlives a delete if and only if another run still uses it or this run never did. |
| `AssessmentStore.RemovalsLeave` | platform/src/tradingng_platform/assessments/repository.py:412-438 | The first removals leave exactly the rows that are not the run's in those tables, so deliveries are found while their events are still there. |
| `AssessmentLifecycle.StepKeepsSound` | platform/src/tradingng_platform/assessments/service.py:172-590 | Submissions, retries, clean reassessments, deletes and the steps of other parts all keep: foreign keys, artifacts within their run, every request has a run, every batch has a request, one run per request, one batch per idempotency key, one clean reassessment per run, attempts count up. |
| `AssessmentLifecycle.ReachableIsSound` | platform/src/tradingng_platform/assessments/service.py:172-590 | After every sequence of those actions from empty tables that whole invariant holds. |
| `AssessmentLifecycle.PermittedDeleteIsSafe` | platform/src/tradingng_platform/assessments/service.py:545-577 | A delete that passes the guards of the service keeps the foreign keys at every single removal and every row of other runs. |
| `AssessmentLifecycle.DeleteUndoesEnrol` | platform/src/tradingng_platform/assessments/repository.py:683-741 | Deleting a new run gives back exactly the store from before its creation; for a batch of its own the batch goes too. |
| `AssessmentLifecycle.RetriedRunIsPinned` | platform/src/tradingng_platform/assessments/service.py:554-560 | In every store whose foreign keys hold, a run that some run retries or re-assesses cannot be deleted; when nothing else stands in the way the error lists the later run. |
| `AssessmentLifecycle.RetryPins` | platform/src/tradingng_platform/assessments/service.py:455-527 | Right after a retry the retried run is pinned by it. |
| `AssessmentLifecycle.RetriesExactlyWhen` | platform/src/tradingng_platform/assessments/service.py:455-470 | A run can be retried exactly when it failed, was cancelled or needs attention; the two refusals have their causes. |
| `AssessmentLifecycle.RetryTriesAgain` | platform/src/tradingng_platform/assessments/repository.py:683-741 | A retry adds a request with the batch and the instrument of the old one and the next attempt at the run, with its first event and requirement; nothing else changes. |
| `AssessmentLifecycle.SubmitIsIdempotent` | platform/src/tradingng_platform/assessments/service.py:182-206 | A second submission under one key changes nothing: the same payload finds the stored batch, another payload is refused. |
| `AssessmentLifecycle.SubmitsExactlyWhen` | platform/src/tradingng_platform/assessments/service.py:182-206 | A submission is refused exactly when the stored batch under the key records another payload, and answers with that batch exactly when it records this one or none. |
| `AssessmentLifecycle.SubmitKeepsSound` | platform/src/tradingng_platform/assessments/service.py:194-236 | A submission of at least one item keeps the invariant. |
| `AssessmentLifecycle.SubmitEnrolsEachItem` | platform/src/tradingng_platform/assessments/service.py:207-236 | Under a new key a submission adds its keyed batch and for every item one request, run, first event and, when data is awaited, requirement, all under new identifiers, different for different items, and linked to each other; nothing else is added or changed. |
| `AssessmentLifecycle.ReassessKeepsSound` | platform/src/tradingng_platform/integrity/service.py:109-185 | A clean reassessment keeps the invariant. |
| `AssessmentLifecycle.ReassessIsIdempotent` | platform/src/tradingng_platform/integrity/service.py:120-124 | Asked again with any identifiers, an accepted clean reassessment answers with the same run and changes nothing. |
| `AssessmentLifecycle.ReassessesExactlyWhen` | platform/src/tradingng_platform/integrity/service.py:115-129 | Each refusal of a clean reassessment comes exactly for its cause, in the order of the checks, and one that exists is the answer. |
| `AssessmentLifecycle.ReassessStartsAfresh` | platform/src/tradingng_platform/assessments/repository.py:759-803 | A new clean reassessment is a first attempt in a batch of its own, for the user and the instrument of the source run; nothing else changes. |
| `AssessmentRepository.AssessmentRepository.DeleteAssessmentGraph` | platform/src/tradingng_platform/assessments/repository.py:400-463 | The sequence of deletes leaves exactly the specified store, and its counts say for every table how many rows are gone. |
| `AssessmentRepository.AssessmentRepository.Delete` | platform/src/tradingng_platform/assessments/service.py:543-568 | The guarded delete happens exactly for a run that has ended, on which nobody works and on which no run builds, and then deletes the graph with true counts; otherwise it raises the error of the first guard that fails and changes nothing. |
| `AssessmentStore.DeletesExactlyWhen` | platform/src/tradingng_platform/assessments/service.py:543-568 | Over rows and columns: a run is deleted if and only if it exists, has ended, no worker lease names it, no validation or price basis of it is running, and no run retries or re-assesses it; each error comes exactly for its cause, in the order of the guards. |
| `RunPages.PagesShowEveryRunOnce` | platform/src/tradingng_platform/assessments/repository.py:591-635 | Following the cursors until there is none shows every run that matched at the start exactly once, newest first, for every limit and while newer runs come in between pages. |
| `RunPages.CursorsRunOut` | platform/src/tradingng_platform/assessments/repository.py:623-635 | There are never more pages than matching runs, so following the cursors ends. |
| `RunPages.NextPage` | platform/src/tradingng_platform/assessments/repository.py:607-635 | The page behind a row shows the next rows of the list as it stood at the start, with a cursor exactly when more follow. |
| `RunCursor.CursorRoundTrip` | platform/src/tradingng_platform/assessments/contracts.py:192-210 | A cursor decodes to the time and id it was made of, exactly when the time carries a zone; otherwise it is refused. |
| `RunCursor.Base64RoundTrip` | platform/src/tradingng_platform/assessments/contracts.py:197-203 | Decoding with the padding restored undoes unpadded URL-safe base64 for every byte string (section 5 of RFC 4648). |
| `RunCursor.CursorsDiffer` | platform/src/tradingng_platform/assessments/contracts.py:192-197 | Cursors of different rows differ. |
| `RunListing.WrittenPagesShowEveryRunOnce` | platform/src/tradingng_platform/assessments/repository.py:617-635 | Sending each page's cursor text back until there is none shows every run that matched at the start exactly once and newest first, while newer runs come in; no such text is ever refused. |
| `RunListing.WrittenCursorIsRead` | platform/src/tradingng_platform/assessments/contracts.py:192-210 | A written cursor gives the page behind the row it names if and only if the time of that row carries a zone; otherwise it is refused. |
| `StderrLog.ReadStderr` | gateway/src/codex_gateway/transport.py:225-263 | The log depends only on the byte stream, however reads cut it: every non-empty line, an unterminated last one included, gives its first 8192 bytes, marked truncated exactly when it is longer. |
| `StderrLog.ReadChunk` | gateway/src/codex_gateway/transport.py:230-261 | One chunk takes the reader from what it should hold after the earlier bytes to what it should hold after these. |
| `StderrLog.LinesAreTheStream` | gateway/src/codex_gateway/transport.py:225-263 | The lines of the specification joined by newlines are the stream, and none contains a newline. |
| `StderrLog.EachLineIsLoggedOnce` | gateway/src/codex_gateway/transport.py:225-275 | There is one record for each line that is not empty, in order: its first 8192 bytes, marked as truncated exactly when the line has more. |
| `AppServerTransport.RunKeepsSound` | gateway/src/codex_gateway/transport.py:95-112 | In every reachable state request ids are used once, and whoever still waits is pending on a transport that has a process. |
| `AppServerTransport.NobodyWaitsOnTheDead` | gateway/src/codex_gateway/transport.py:289-304 | No request waits on a transport without a process. |
| `AppServerTransport.SettledStays` | gateway/src/codex_gateway/transport.py:209-219 | A future that is settled keeps its outcome, whatever answers, ends or returns follow. |
| `AppServerTransport.StepKeepsSettled` | gateway/src/codex_gateway/transport.py:209-219 | A settled future never changes, and a waiting one becomes exactly what the event says: the result or the error of the answer to its own id, closed when its process ends or is cleaned up, cancelled when its requester gives up, else it goes on waiting. |
| `AppServerTransport.StepKeepsBooks` | gateway/src/codex_gateway/transport.py:95-110 | An event adds a pending future and an id only for a request on a live process, drops a pending future only when its requester returns, and takes the process away only by its own end. |
| `AppServerTransport.RequestsGetFreshIds` | gateway/src/codex_gateway/transport.py:98-101 | A new request never takes an id used before. |
| `AppServerTransport.Connection.BeginTerminal` | gateway/src/codex_gateway/transport.py:289-299 | Ends the current process only, failing all pending requests. |
| `TurnRuntime.TurnsAreIsolated` | gateway/src/codex_gateway/runtime.py:422-486 | What a turn becomes depends only on its own notifications and the events of the transport, however other threads interleave. |
| `TurnRuntime.TurnIsItsNotifications` | gateway/src/codex_gateway/runtime.py:422-486 | While the transport stays, a turn is exactly what its own notifications, in their order, make of it. |
| `TurnRuntime.FirstSettlementStays` | gateway/src/codex_gateway/runtime.py:422-433 | The first event that settles a turn decides; nothing later changes its outcome while it is registered. |
| `TurnRuntime.LastReportsWin` | gateway/src/codex_gateway/runtime.py:435-446 | As long as a turn is open it holds the last agent message, a missing text included, and the last well-formed usage report. |
| `TurnRuntime.UsageIsReported` | gateway/src/codex_gateway/runtime.py:441-446 | The usage handler sets prompt and completion tokens to the counts under their two keys, a missing key as 0, and leaves the turn alone when the report cannot be read. |
| `TurnRuntime.CompletionReportsLast` | gateway/src/codex_gateway/runtime.py:447-474 | A turn completes with the last agent message and usage, or without one with the fallback among the items of the completion. |
| `TurnRuntime.CompletionDecides` | gateway/src/codex_gateway/runtime.py:447-486 | Over the notification: an open turn completes if and only if the status is `completed` and there is a message; otherwise rate limit, unauthorized, context limit and interruption come out each exactly for their codes or status, and the general failure for the rest. |
| `TurnRuntime.TurnEndsAsReported` | gateway/src/codex_gateway/runtime.py:435-486 | The same over all notifications of a turn, with the last message and usage that came before. |
| `TurnRuntime.UnreadableIsInvalid` | gateway/src/codex_gateway/runtime.py:427-434 | A completion whose parts are no objects, or whose items hide the message, ends the turn as invalid. |
| `TurnRuntime.ReadinessIsLostExactlyWhen` | gateway/src/codex_gateway/runtime.py:476-479 | A notification takes readiness away exactly when it settles a turn as unauthorized. |
| `TurnRuntime.FallbackIsLastMessage` | gateway/src/codex_gateway/runtime.py:450-454 | The fallback finds the last item that is an agent message, and the items behind it are well-formed. |
| `TurnRuntime.OverflowLeavesTurnOpen` | gateway/src/codex_gateway/runtime.py:422-446 | A usage report with an infinite number neither settles the turn nor is counted, since its error is not caught by the handler. |
| `TurnRuntime.ExitSettlesAll` | gateway/src/codex_gateway/runtime.py:488-497 | An exit of the current app-server leaves no registered turn open and keeps every outcome already there. |
| `TurnRuntime.EndsSettleAll` | gateway/src/codex_gateway/runtime.py:206-266 | An exit, a replacement or a stop fails exactly the open turns with its reason and keeps the others; only a started app-server makes the runtime ready. |
| `TurnRuntime.CodexRuntime.HandleNotification` | gateway/src/codex_gateway/runtime.py:422-486 | The handler leaves exactly the runtime of the step model, errors that escape it included; a readable completion of an open turn settles it as status, code and message say, and readiness is lost exactly when that is unauthorized. |
| `TurnRuntime.CodexRuntime.FailOpenTurns` | gateway/src/codex_gateway/runtime.py:519-522 | Fails exactly the open turns, in whatever order they are visited. |
| `TurnRuntime.CodexRuntime.HandleExit` | gateway/src/codex_gateway/runtime.py:488-497 | The exit handler leaves exactly the runtime of the step model. |
| `Overlap.MaxOverlap` | gateway/src/codex_gateway/audit_summary.py:135-145 | For all records the sweep returns the greatest number of open exchanges less reversed ones over all times, and that is the greatest number open exactly when some busiest time sees no reversed exchange. |
| `Overlap.PeakIsMostActiveExactlyWhen` | gateway/src/codex_gateway/audit_summary.py:135-145 | The peak is never more than the greatest number open at one time, and it is that number if and only if nothing is ever open or some busiest time sees no reversed exchange. |
| `Overlap.PeakOfOrderedExchanges` | gateway/src/codex_gateway/audit_summary.py:135-145 | When every exchange starts no later than it ends this is the greatest number open at one time, with the start inside and the end outside. |
| `Overlap.PeakForgetsOrder` | gateway/src/codex_gateway/audit_summary.py:135-145 | The result does not depend on the order of the records. |
| `Overlap.ReversedExchangeHides` | gateway/src/codex_gateway/audit_summary.py:135-145 | An exchange that ends before it starts makes the sweep report less than was open. |
| `MemorySnapshot.SnapshotHoldsLatestRuns` | platform/src/tradingng_platform/memory/context.py:158-187 | The entries are eligible candidates strictly before the analysis date, one per run, each the latest of its run; whatever is left out ranks below all of them and the limit is then reached; dates and runs ascend. |
| `MemorySnapshot.EntryHasHighestHorizon` | platform/src/tradingng_platform/memory/context.py:167-183 | Among candidates of one run and date the entry has the highest matured horizon. |
| `MemorySnapshot.SnapshotLooksBack` | platform/src/tradingng_platform/memory/context.py:157-192 | Over the columns: every entry is of the ticker, from before the date and closed before it; a candidate of that kind has an entry of its run that is no older, or the snapshot is full of entries no older. |
| `MemorySnapshot.SnapshotForgetsOrder` | platform/src/tradingng_platform/memory/context.py:158-187 | Permuting candidates with distinct keys or adding and removing ineligible ones changes nothing. |
| `MemorySnapshot.BuildMemorySnapshot` | platform/src/tradingng_platform/memory/context.py:146-187 | The loop with its early exit computes the specified selection, and a limit below one is refused. |
| `StatementIntegrity.FilterKeepsWhatAuditAccepts` | platform/src/tradingng_platform/integrity/financials.py:239-288 | The live filter keeps a statement row, with its multiplicity, exactly when the retrospective audit would call it safe. |
| `StatementIntegrity.KeptRowsWerePublished` | platform/src/tradingng_platform/integrity/financials.py:239-288 | A row is kept exactly when it is a dict with a fiscal date whose statement became available by the analysis date. |
| `StatementIntegrity.AuditJudgesRows` | platform/src/tradingng_platform/integrity/audit.py:304-359 | The audit calls an exposed row safe, at risk or unknown exactly when its statement came out in time, came out later, or cannot be dated, and its finding tells those dates. |
| `StatementIntegrity.FilterKeepsTheRest` | platform/src/tradingng_platform/integrity/financials.py:221-297 | Of a decoded payload only the two reports change, and the notice is added exactly when nothing is left of both. |
| `StatementIntegrity.WrappingChangesNothing` | platform/src/tradingng_platform/integrity/audit.py:385-396 | An output is judged alike bare, as its text, or wrapped as content, and anything else is unparseable. |
| `StatementIntegrity.FilteredTextAuditsSafe` | platform/src/tradingng_platform/integrity/audit.py:304-359 | Auditing filtered text, whatever the text was, records nothing unsafe and finalizes to safe. |
| `StatementIntegrity.FilterIsIdempotent` | platform/src/tradingng_platform/integrity/financials.py:207-297 | Filtering a filtered text changes neither the payload nor the text. |
| `StatementIntegrity.FindingsAccountForRows` | platform/src/tradingng_platform/integrity/financials.py:236-288 | The filter leaves one safe finding for every observed row and as many verified ones as rows it keeps. |
| `StatementIntegrity.WorstIsAttained` | platform/src/tradingng_platform/integrity/policy.py:106-109 | The final status is the worst recorded one: none is worse and some finding has it; safe if and only if all are safe. |
| `StatementIntegrity.StatusExactlyWhen` | platform/src/tradingng_platform/integrity/policy.py:88-110 | A run is at risk exactly when some finding is, unknown exactly when none is at risk and some is unknown or nothing was recorded in a historical run, else safe. |
| `StatementIntegrity.JoinOfParts` | platform/src/tradingng_platform/integrity/policy.py:106-109 | The status of two groups of findings is the worse of theirs, in either order. |
| `StatementIntegrity.FilterStatementPayload` | platform/src/tradingng_platform/integrity/financials.py:207-297 | The loops over both reports compute the specified payload, notice and findings. |
| `StatementIntegrity.PointInTimeRecorder.AuditFinancialOutput` | platform/src/tradingng_platform/integrity/audit.py:304-359 | The audit appends exactly the specified findings. |
| `StatementIntegrity.PointInTimeRecorder.Close` | platform/src/tradingng_platform/integrity/policy.py:88-109 | The final status is that of the recorded findings, or of the one finding an empty recorder gets. |
| `FilingAvailability.SecFilingClient.Resolve` | platform/src/tradingng_platform/integrity/financials.py:55-79 | Whatever was asked before, the client with its caches answers what the documents say for the ticker in upper case; it raises exactly when the answer is not cached and a download it needs fails or, behind the downloads, some filing has a form that cannot be hashed, with the error that belongs to the cause, and a raise leaves no answer behind. |
| `FilingAvailability.EarliestIsFirstFiling` | platform/src/tradingng_platform/integrity/financials.py:67-78 | The answer is the date of some fitting filing and none fits earlier; there is none exactly when no filing fits. |
| `FilingAvailability.AnswerIsFirstFiling` | platform/src/tradingng_platform/integrity/financials.py:55-79 | Over the columns of the listed filings: a statement became available on a date exactly when the ticker has one identifier, a filing of a fitting form for that fiscal end was made then, and none before. |
| `FilingAvailability.RowHoldsColumns` | platform/src/tradingng_platform/integrity/financials.py:334-348 | Each cell of a list in a columnar table is found in its row under its column, and rows hold nothing else. |
| `FilingAvailability.RowsAreTheCells` | platform/src/tradingng_platform/integrity/financials.py:334-348 | A columnar table has as many rows as its longest list; each row holds exactly the cells of the lists that reach it, and what is no list is dropped. |
| `FilingAvailability.ResolveFirst` | platform/src/tradingng_platform/integrity/financials.py:191-204 | The composite ends with the first reply that is neither a caught error nor empty, be it an answer or an error it does not catch, and with none only when there is no such reply. |
| `SequentialBatch.DriverStaysSound` | scripts/sequential_assessment_batch.py:176-266 | From a fresh plan, under every sequence of answers, raises, failed saves and restarts, the recorded dates of each symbol in the state file are a prefix with all but the last succeeded and the status fits them. |
| `SequentialBatch.PostsInOrder` | scripts/sequential_assessment_batch.py:193-215 | A date is posted only while it has no record, after all dates before it succeeded, and never on a blocked or completed symbol. |
| `SequentialBatch.PollDecides` | scripts/sequential_assessment_batch.py:235-262 | The next date with a record is polled, and the answer decides: a failure status blocks the track, a success completes it on the last date and frees it before, anything else leaves it active; it raises exactly without an answer, on the answer of another run, or when a change is not saved. |
| `SequentialBatch.PostDecides` | scripts/sequential_assessment_batch.py:207-233 | The next date without a record is posted, and it is put on record as active exactly when the one run asked for comes back and is saved. |
| `SequentialBatch.RestAsksNothing` | scripts/sequential_assessment_batch.py:188-204 | Without a next date nothing is asked; a track whose dates all succeeded is completed once that is saved. |
| `SequentialBatch.RecordedDateIsNotPostedAgain` | scripts/sequential_assessment_batch.py:200-230 | Once a date has a run on record it is never posted again in any continuation. |
| `SequentialBatch.PostRepeatsExactlyWhenNotRecorded` | scripts/sequential_assessment_batch.py:193-230 | A posted date can be posted again in some continuation if and only if the platform did not answer the post with the one run that was asked for, or the state file was not saved with its record. |
| `SequentialBatch.LostPostIsRepeated` | scripts/sequential_assessment_batch.py:193-215 | On a fresh plan of one symbol a post without an answer is repeated. |
| `SequentialBatch.UnsavedPostIsRepeated` | scripts/sequential_assessment_batch.py:200-230 | On a fresh plan of one symbol a post that was accepted but not saved is repeated after the restart. |
| `SequentialBatch.BlockedStaysBlocked` | scripts/sequential_assessment_batch.py:190-192 | A blocked or completed symbol stays as it is and asks the platform for nothing more. |
| `SequentialBatch.CompletedMeansAllSucceeded` | scripts/sequential_assessment_batch.py:244-256 | A completed symbol has succeeded on every date. |
| `SequentialBatch.DoneMeansAllSucceeded` | scripts/sequential_assessment_batch.py:305-316 | The plan returns without an error only when every date of every symbol succeeded. |
| `SequentialBatch.CountsAddUp` | scripts/sequential_assessment_batch.py:157-173 | The four track counts of the summary add up to the number of symbols. |
| `SequentialBatch.ValidIsPrefix` | scripts/sequential_assessment_batch.py:101-119 | The state check accepts a track if and only if its records are a prefix of the dates with all but the last succeeded. |
| `SequentialBatch.ValidateTrack` | scripts/sequential_assessment_batch.py:101-119 | The loop with its flag decides exactly that check. |
| `SequentialBatch.Driver.ReconcileOnce` | scripts/sequential_assessment_batch.py:176-266 | A pass visits the symbols in order until a call or a save raises, memory and state file agree when none does, and the state check behind the loop never fails. |
| `SequentialBatch.Driver.VisitSymbol` | scripts/sequential_assessment_batch.py:189-264 | One symbol's turn leaves exactly the state file of the step model, and memory agrees with it when the turn does not raise. |
| `BatchOnPlatform.DateIsStartedOnce` | scripts/sequential_assessment_batch.py:125-142 | However often the driver posts a date, whatever posts, answers and saves are lost and whatever else happens on the platform, deletes included, submissions never leave more than one run of the date that is no retry or clean reassessment. |
| `BatchOnPlatform.EveryDateIsStartedOnce` | scripts/sequential_assessment_batch.py:125-142 | The same from a fresh plan and empty tables, with no condition on the start. |
| `BatchOnPlatform.StepKeepsOneOriginal` | platform/src/tradingng_platform/assessments/service.py:182-236 | No action of the platform starts a second run under an idempotency key whose submissions bring one item. |
| `KeycloakSync.OnePassConverges` | scripts/sync_keycloak_user_management.py:29-66 | For every well-formed realm one pass succeeds if and only if some enabled user is Admin and the web and realm-management clients exist; then a second plan is empty, the same users hold Admin, users keep every other role and no legacy one, only who lost a legacy role may gain User, and no other role, scope or client is lost. |
| `KeycloakSync.PassSucceeds` | scripts/sync_keycloak_user_management.py:249-289 | The planned actions, applied in order, never need what is not there yet, and their result is the specified realm. |
| `KeycloakSync.PlanIsWhatIsNeeded` | scripts/sync_keycloak_user_management.py:29-66 | A plan holds exactly the actions that the realm needs, read off its columns, and right behind each migration the logout of the same user, and no other logout. |
| `KeycloakSync.LivePassConverges` | scripts/sync_keycloak_user_management.py:249-289 | Applying the printed actions succeeds if and only if the web and realm-management clients exist and no user with a legacy role lacks an id; then it ends where the unprinted pass ends, and a second plan is empty. |
| `KeycloakSync.PlannedActionsParse` | scripts/sync_keycloak_user_management.py:29-85 | Every printed action of a plan parses back to itself, even when user ids contain colons, if and only if no user with a legacy role has an empty id. |
| `KeycloakSync.EmptyIdDoesNotParse` | scripts/sync_keycloak_user_management.py:76-85 | With an empty user id neither a migration nor a logout can be read back. |
| `KeycloakSync.MigrateAll` | scripts/sync_keycloak_user_management.py:322-336 | The user actions migrate exactly the users with legacy roles, each to its target role. |
| `KeycloakSync.AdminHoldersStay` | scripts/sync_keycloak_user_management.py:322-336 | Migration leaves the set of users that hold Admin unchanged. |
| `KeycloakSync.LiveSynchronizer.ApplyActions` | scripts/sync_keycloak_user_management.py:249-289 | The loop applies actions until one cannot be read or is refused, and leaves the realm as far as it came. |
| `TurnRuntime.GoneTransportIsIgnored` | gateway/src/codex_gateway/runtime.py:233-239 | Supporting fact: notifications and exits of a transport that is no longer current change nothing. |
| `DataReadiness.AcceptedManifestIsVerified` | platform/src/tradingng_platform/data_readiness/service.py:74-97 | Supporting fact: the service accepts an answer if and only if the fetched manifest carries the announced hash and its recomputed hash is that one. |
| `Runs.TransitionTable` | platform/src/tradingng_platform/domain/runs.py:23-80 | Supporting fact: exactly the terminal statuses have no way out, no move repeats a status, and none leads back to waiting for data. |
| `Runs.CancelIsAllowed` | platform/src/tradingng_platform/assessments/service.py:424-440 | Supporting fact: the transition that a cancel asserts is always allowed, and a cancel leaves exactly the terminal and already cancelling runs alone. |

## Left out

- Lone surrogate escapes in JSON texts: decoded texts hold Unicode scalar values only, so the check for text that cannot be encoded is not modelled.
- `$id` base URIs, percent-encoded fragments and the full Draft-07 keyword list: a representative set of applicators is interpreted, all other keywords keep an arbitrary meaning.
- The Draft-07 meta-schema check is a parameter; the recursion limit of the interpreter before and behind the expansion.
- Integer keys of dictionaries in a raw schema are told from texts only by their weight.
- `SchemaVisitor.VisitSchema`: the depth argument of the cost counts references and subschemas together, as the code does; when the cost breaks several limits, or a schema has several defects, the contract says that the reported one is there, not which is met first.
- `ResponseAdapter.ToChatCompletion`: the schema validator is the acceptance relation of the model; identifiers, timestamps and usage of the response record are not built, and numbers keep their written form where Python would print a float anew; which numerals overflow and which texts exceed the digit and nesting limits of the interpreter are parameters.
- `DataReadinessRepository.DataReadinessRepository.ClaimDue`: which rows other transactions hold, and where missing poll times sort, are parameters.
- `DataReadiness.ReachableIsSound`: the scheduler and workers are assumed to leave waiting runs alone, although the transition table allows such moves; they select queued and leased runs only (platform/src/tradingng_platform/scheduler/repository.py:252, platform/src/tradingng_platform/worker/repository.py:90), and `MovesKeepWaitsTogetherExactlyWhen` shows that the assumption is exactly what is needed.
- `DataReadiness.StepKeepsSound`: deleting an assessment is a step of the store model, not of the protocol model; there a deleted row would fence every claim on it by its absence.
- The text of error summaries, secret redaction and log texts.
- `AssessmentStore.DeleteTakesExactlyTheGraph`: identifiers are unique over all tables, not per table.
- `AssessmentLifecycle.SubmitIsIdempotent`: two submissions that race for one key are ordered by the transaction lock here; the nested transaction that catches the loser is not modelled.
- `AssessmentLifecycle.ReassessStartsAfresh`: the key of the new batch, which the code builds from the run and the policy version, is a parameter.
- Roles, ownership and scopes of the caller in submit, retry, cancel and delete; audit records of those calls; files of deleted runs.
- Admission of items by the data service in submit and retry: the admitted items are parameters.
- `RunPages.PagesShowEveryRunOnce`: rows that disappear or stop matching between two pages are not considered.
- `RunCursor.CursorRoundTrip`: decoding refuses bytes beyond ASCII, which no written cursor contains, where the code would try UTF-8.
- Starting, terminating and restarting the app-server process, asyncio cancellation and the timeouts around it.
- `TurnRuntime.TurnsAreIsolated`: the readiness flag is shared by all threads and is not part of the statement.
- Audit of date-bounded, snapshot and macro outputs, and of evidence files line by line.
- `BatchOnPlatform.DateIsStartedOnce`: retries and clean reassessments of a date start further runs by design; key and payload digest of a post are functions of symbol and date.
- `FilingAvailability.SecFilingClient.Resolve`: what a download gives is a function, whether it succeeds is a parameter; the files cached on disk are part of that parameter.
- The fingerprint and entry hashes of memory snapshots and integrity documents; rendering of entries.
- Normalisation of symbols and dates, timestamps, printing, polling and the deadline of the batch driver; damage to its state file from outside.
- `KeycloakSync.OnePassConverges`: composite and default roles of the realm, and paging through users, are not modelled.
- Synchronising the platform's own user table after a realm pass.
- HTTP, authentication, the user interface, vendors, validation, webhooks, scheduler and worker packages.
