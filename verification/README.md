# Durable capability assembly, verified

Captain assembles three capabilities by driving 3 inputs through 7 stages each, and then three resume
slices, 24 slices in all. Every slice is an external effect. A controller persists an append-only history of
checkpoints around each effect, fenced by expected revisions, so that any crash can be repaired: a recorded
result is replayed, or a one-time receipt certifies that nothing happened and the slice is tried again.

The project models that protocol and proves what it is for, over every run of any number of controllers with a
crash possible between any two steps. Five smaller mechanisms of the gateway follow it.

| file | what it models |
|---|---|
| `AssemblyContracts.dfy` | the frozen models and their validators |
| `AssemblyTransitions.dfy` | how the controller turns one checkpoint into the next |
| `HistoryValidation.dfy` | `_validate_history`: the loop, and the predicate it decides |
| `HistoryTransitions.dfy` | the same acceptance as the five changes one record may make to the one before |
| `HistoryLaws.dfy`, `HistoryLimits.dfy` | what acceptance implies about a history, and what it does not |
| `AuthorityLaws.dfy`, `ControllerRuns.dfy`, `SliceClosing.dfy` | the laws every written checkpoint keeps |
| `AnswerAcceptance.dfy` | exactly which answers close a started slice, and which retry receipts clear it |
| `RecoveryRefinement.dfy` | recovery against uninterrupted execution |
| `AssemblyRepository.dfy` | the tables, their transactions, and the repository object |
| `AssemblyProtocol.dfy` | many controllers as a state machine over transactions, effect calls and crashes |
| `ProtocolSafety.dfy`, `WriteAhead.dfy` | safety of all runs, and of all runs of the production composition |
| `ProtocolProgress.dfy`, `ProtocolCompletion.dfy` | what an idle process can always do next, recovery without an effect, and when an assembly can still be completed |
| `RetryProgress.dfy` | retries outside production, each with one more effect call |
| `ControllerAnswers.dfy`, `AssemblyController.dfy` | what every controller call answers and leaves, and the controller object with its `advance` loop |
| `FinalEvidence.dfy` | the report of a finished assembly |
| `ToolBroker.dfy`, `LeaseIssuer.dfy`, `RenewalChain.dfy`, `CostRendering.dfy`, `Ledger.dfy` | the smaller mechanisms |

Conventions. A SHA-256 digest and a name-based UUID (section 4.3 of RFC 4122) are free constructors applied to
what was hashed, so equal digests mean equal content, and a digest is never the ledger's genesis link. Money is
`real`. Opaque `detail` fields stand for model fields that no modelled check reads. Exceptions are `Refusal`
values: the controller's three exception classes, `Malformed` for a model whose validator raises, and `Unavailable`
for a port's own error. A transaction commits in one step or leaves no trace; a commit whose reply is lost is a
crash.

What the proofs found out about the code:

- `_validate_history` never checks that the first record holds no claim, receipt or retry. Revisions account for
  all later records exactly when the first record does (`AccountingIsExact`, `AccountingNeedsWeightlessStart`).
- `_validate_history` accepts an advance that is finished before its target; controllers never write one
  (`ReceiptsRanIffNoEarlyFinish`, `EarlyFinishIsAccepted`).
- The validator's dictionary of consumed retry receipts refuses nothing that its transition checks admit
  (`ValidateHistory`).
- Everything the controller could refuse after recording a terminal result holds beforehand, so the record is
  never followed by a failing checkpoint validation (`TypedAnswerNeverMalformed`, `TerminalRecordIsValid`).
- A tool call whose arguments change after a crash can reach the host twice (`ChangedArgumentsPerformTwice`): it has
  at most one effect exactly when all attempts that reach the host carry the same arguments
  (`OneEffectIffSameHostArguments`).
- In production the answer of an input port is stored before the controller checks it, and a resume port stores
  nothing (`gateway/capability_assembly_production.py:1236-1248`). An assembly whose started slice nobody works on
  any more can be completed exactly when the tables answer for that slice with an answer the checks accept;
  otherwise its head never moves again (`OrphanClosesIffAnswered`, `CompletableIff`).
- A crash between a renewal command and its grant leaves its scope refused, however often it is called, until
  something else files that grant: the grant route (`gateway/app.py:1427-1433`), the runtime service
  (`agenten/agent_runtime/service.py:80-83`), or an overlapping call that filed the command
  (`CutCallNeedsGrant`, `MissingUntilGranted`). Only sixteen dead grants are final (`ExhaustionIsForever`).
- A negative parent index, which the ledger accepts, makes a block list a child that does not name it; the forest is
  exact as long as no block is added that way, and never again afterwards (`OperationsKeepLedger`).

## Model

| member | source | states |
|---|---|---|
| `HistoryValidation.BookReceipts` | gateway/capability_assembly_controller.py:1106-1122 | retry receipts of new outcomes are booked once; on a checkpoint with distinct outcomes nothing booked before clashes |
| `HistoryValidation.ValidateRecord` | gateway/capability_assembly_controller.py:1085-1134 | one turn of the loop accepts a record exactly when it is sound by itself and follows the record before it |
| `HistoryValidation.ValidateHistory` | gateway/capability_assembly_controller.py:1077-1134 | the validator accepts exactly the histories whose records are sound and whose neighbours are admitted transitions |
| `HistoryTransitions.TransitionIff` | gateway/capability_assembly_controller.py:1210-1338 | neighbours are admitted exactly when the later record equals the earlier one but for one change: a claim, a start, a cleared start, a closed advance, or one slice done |
| `HistoryTransitions.AcceptedIff` | gateway/capability_assembly_controller.py:1077-1194 | a history is accepted exactly when it begins untouched, every record belongs at its place under its own digest, and neighbours differ by one of the five changes |
| `HistoryLaws.LexicographicProgress` | gateway/capability_assembly_controller.py:1149-1194 | in any accepted history, c completed slices mean that item i holds precisely the first clamp(c-7i, 0, 7) stages and the resume count is max(0, c-21) |
| `HistoryLaws.WeightGrowsByRevision` | gateway/capability_assembly_controller.py:1210-1338 | every admitted transition adds exactly one to 2 receipts + 2 slices + 2 retries + claim + start |
| `HistoryLaws.AccountingIsExact` | gateway/capability_assembly_controller.py:1210-1338 | revision = 1 + that weight along the whole history if and only if the first record is weightless |
| `HistoryLaws.StartsAreRetriesPlusOne` | gateway/capability_assembly_controller.py:1240-1303 | along any accepted history a slice is marked started once per retry consumed since the first record, and once more when it is done or under way |
| `HistoryLaws.ReceiptsCoverProgress` | gateway/capability_assembly_controller.py:1210-1303 | receipts abut from slice 0 up to the active advance, or up to the completed slices, in every record of an accepted history or in none |
| `HistoryLaws.ExecutedSlicesAddUp` | gateway/capability_assembly_contracts.py:404-424 | in any accepted history the executed counts that receipts gained since the first record, and the progress of the active advance, sum to the completed slices |
| `HistoryLimits.ReceiptsRanIffNoEarlyFinish` | gateway/capability_assembly_controller.py:1283-1303 | all receipts of an accepted history ran their allowance if and only if those of its first record did and no advance was finished early |
| `HistoryLimits.EarlyFinishIsAccepted` | gateway/capability_assembly_controller.py:1283-1303 | a concrete accepted history whose receipt ran nothing of its allowance |
| `HistoryLimits.AccountingNeedsWeightlessStart` | gateway/capability_assembly_controller.py:1077-1092 | a concrete accepted history that starts with a claim, so its revisions do not add up |
| `AuthorityLaws.ExecutedItemKeepsLaws` | gateway/capability_assembly_controller.py:1490-1584 | an accepted stage keeps all authorities of the item in agreement on job, correlation, capability, version, suite, Hermes and trace references, never lowers cost, and changes only what the validator allows |
| `AuthorityLaws.ReconciledItemIsExecutedItem` | gateway/capability_assembly_controller.py:510-604 | replaying a recorded authority yields the item, or the refusal, that executing its stage yields |
| `ControllerRuns.NextFollows` | gateway/capability_assembly_controller.py:185-281 | whatever claim, start, slice, replay, retry-clear or finish appends to a lawful checkpoint is an admitted transition after it |
| `ControllerRuns.NextKeepsItems` | gateway/capability_assembly_controller.py:1490-1652 | every move keeps item and resume authorities lawful, never rewinds a cost and never changes a frozen reference |
| `ControllerRuns.NextKeepsTiling` | gateway/capability_assembly_controller.py:252-281 | every move keeps receipts tiling the work, each ending at min(start + maximum, 24) |
| `ControllerRuns.NextKeepsLaws` | gateway/capability_assembly_controller.py:185-281 | the preservation theorem: lawful, accepted and advancing after every move |
| `SliceClosing.LawfulIsCallable` | gateway/capability_assembly_controller.py:669-690 | no started slice of a lawful checkpoint is refused before its port is reached |
| `SliceClosing.TypedAnswerNeverMalformed` | gateway/capability_assembly_controller.py:843-901 | a typed port answer is refused only as a conflict or as incomplete, never by the validation of the checkpoint that closes the slice |
| `SliceClosing.SliceIsAnswerable` | gateway/capability_assembly_controller.py:1490-1652 | every started slice of a lawful checkpoint, resume slices included, has a typed answer that all checks accept |
| `AnswerAcceptance.StageAcceptedIff` | gateway/capability_assembly_controller.py:1490-1584 | a stage of a lawful item closes exactly when its port's answer is of this stage, bound to the item, carries on from the newest observation without rewinding its cost and within the reservation, and meets the release, execution or projection conditions; it is incomplete without that field, conflicts otherwise, and stores just the answer |
| `AnswerAcceptance.AnswerAcceptedIff` | gateway/capability_assembly_controller.py:669-901 | the same for every started slice, resume slices included, with the whole checkpoint that closes it |
| `AnswerAcceptance.RetryClearsIff` | gateway/capability_assembly_controller.py:441-466 | a valid retry receipt clears the started slice exactly when it is for that very start and no recorded outcome carries it, and conflicts otherwise |
| `AnswerAcceptance.ReadbackClosesIff` | gateway/capability_assembly_controller.py:496-666 | a recorded result closes the started slice exactly when it was recorded for it and executing it would have been accepted |
| `RecoveryRefinement.ReconcileErased` | gateway/capability_assembly_controller.py:496-666 | closing a slice from a terminal readback and executing it agree once recorded outcomes are erased |
| `RecoveryRefinement.RecoveryRefinesExecution` | gateway/capability_assembly_controller.py:496-841 | recovery succeeds exactly when direct execution does, and writes the same checkpoint plus the outcome |
| `RecoveryRefinement.RecoveredRunIsUninterruptedRun` | gateway/capability_assembly_controller.py:223-281 | a whole run with crashes and readbacks writes, up to outcomes, what the uninterrupted run writes |
| `AssemblyRepository.WritableIff` | gateway/capability_assembly_repository.py:351-459 | a write commits exactly when the checkpoint is the next revision of its stored history, its key belongs to no other history, and its receipt was never consumed |
| `AssemblyRepository.ReadbackIff` | gateway/capability_assembly_repository.py:154-252 | a readback is accepted exactly if it is terminal, of the scope, and contradicts nothing held for the same start; what is held for a scope is what is read for it |
| `AssemblyRepository.ReconcileIff` | gateway/capability_assembly_bootstrap.py:1472-1476 | the effect receipt answers first, and the terminal readback only without one |
| `AssemblyRepository.WrittenKeepsSound` | gateway/capability_assembly_repository.py:351-420 | a committed write keeps revisions exactly 1..head, keys bound to one assembly, and receipts bound to the checkpoint that records them |
| `AssemblyRepository.WrittenAppends` | gateway/capability_assembly_repository.py:351-420 | a committed write appends one record to its own history and touches no other |
| `AssemblyRepository.RecordedKeepsSound` | gateway/capability_assembly_repository.py:154-193 | recording a readback keeps the tables sound and leaves every history alone |
| `AssemblyRepository.Repository.ReadHistory` | gateway/capability_assembly_repository.py:283-296 | returns the assembly's records in revision order |
| `AssemblyRepository.Repository.FindByIdempotencyKey` | gateway/capability_assembly_repository.py:298-317 | finds the head record of the one assembly bound to a key, exactly when there is one |
| `AssemblyRepository.Repository.WriteCheckpoint` | gateway/capability_assembly_repository.py:351-459 | compare-and-swap: commits exactly when revision, key and retry receipt allow it, and otherwise leaves no trace |
| `AssemblyRepository.Repository.ConsumeRetryAuthorizationAndAppend` | gateway/capability_assembly_repository.py:331-349 | consumes a receipt exactly together with a checkpoint that records it |
| `AssemblyRepository.Repository.RecordReadback` | gateway/capability_assembly_repository.py:154-193 | write-once: a readback is stored, or repeated verbatim, or refused |
| `AssemblyRepository.Repository.Readback` | gateway/capability_assembly_repository.py:201-224 | returns the stored outcome only when it is bound to the very scope asked about |
| `AssemblyRepository.Repository.Reconcile` | gateway/capability_assembly_bootstrap.py:1472-1476 | answers with the effect receipt, or else with the terminal readback |
| `ProtocolSafety.AdmissionStarts` | gateway/capability_assembly_controller.py:144-180 | a submitted checkpoint starts an accepted history of lawful checkpoints |
| `ProtocolSafety.ApplySafe` | gateway/capability_assembly_controller.py:223-281 | every event of every process, a crash included, keeps the protocol invariant |
| `ProtocolSafety.WrittenHistoriesReadBack` | gateway/capability_assembly_controller.py:1065-1075 | in every run the repository stays sound and every stored history passes the validator, so the service never rejects what it wrote |
| `ProtocolSafety.EffectCallsWithinReceipts` | gateway/capability_assembly_controller.py:391-466 | in every run, port calls for a slice never exceed one plus the no-effect retry receipts consumed for it |
| `ProtocolSafety.ItemsOnlyAdvance` | gateway/capability_assembly_controller.py:1490-1523 | between any two records of a written history costs do not fall, stay within the reservation, and frozen references stay |
| `ProtocolSafety.ReceiptsTileEveryRun` | gateway/capability_assembly_controller.py:256-281 | in every run the receipts of an assembly tile its completed slices without gap or overlap |
| `ProtocolSafety.ReceiptConsumedIffRecorded` | gateway/capability_assembly_repository.py:331-420 | a retry receipt is in the table if and only if a stored checkpoint records it, always of one assembly and under one authorization |
| `ProtocolSafety.StoredForever` | gateway/capability_assembly_repository.py:351-420 | no checkpoint, receipt or readback is ever overwritten or removed, and heads only move forward under their key |
| `WriteAhead.StoredIsAnswer` | gateway/capability_assembly_controller.py:903-979 | a slice closed from reconciliation stores exactly the authority its answer carries |
| `WriteAhead.EffectIsTerminalOutcome` | gateway/capability_assembly_production.py:635-657 | the receipt the effect adapter files and the controller's terminal record of a slice are equal |
| `WriteAhead.TerminalRecordIsValid` | gateway/capability_assembly_contracts.py:328-370 | the terminal record of an accepted answer always satisfies the outcome contract |
| `WriteAhead.ApplyAhead` | gateway/capability_assembly_production.py:635-740 | every event of a production run keeps the write-ahead invariant |
| `WriteAhead.CompletedSlicesAreDurable` | gateway/capability_assembly_controller.py:843-979 | every completed slice has a durable outcome under the scope of the record that started it, carrying exactly the authority its completed checkpoint stores |
| `WriteAhead.ReadbackTablesAgree` | gateway/capability_assembly_repository.py:122-252 | the two readback tables never disagree on a key, and every key belongs to a stored start marker that was used |
| `WriteAhead.ProductionCallsAtMostOnce` | gateway/capability_assembly_bootstrap.py:1445-1476 | in production, where only readbacks answer, no effect is ever called twice |
| `ProtocolProgress.NextSliceReachesItsPort` | gateway/capability_assembly_controller.py:223-256 | while nothing is active and slices remain, an idle process can claim, start and reach the port of the next slice, which counts one call |
| `ProtocolProgress.RecordedSliceIsRecovered` | gateway/capability_assembly_controller.py:409-467 | whenever the tables answer for the started slice of the latest record, an idle process closes it exactly as executing it with that answer would, reaching no port |
| `ProtocolCompletion.UnstartedCompletes` | gateway/capability_assembly_controller.py:223-281 | from any reachable world, whatever crashed before, an assembly without a started slice can be driven through all 24 slices |
| `ProtocolCompletion.FinishedIsReported` | gateway/capability_assembly_controller.py:283-343 | an assembly so completed has its final report |
| `ProtocolCompletion.OrphanClosesIffAnswered` | gateway/capability_assembly_controller.py:409-467 | in production a started slice whose marker no process owns is ever closed if and only if the tables answer for it acceptably, and then without an effect; otherwise no run moves the head |
| `ProtocolCompletion.CompletableIff` | gateway/capability_assembly_controller.py:223-281 | in production an assembly on whose latest record no process works can be completed if and only if that record starts no slice or its slice is so answered |
| `RetryProgress.RetryReachesPort` | gateway/capability_assembly_controller.py:441-466 | outside production, a fresh retry receipt for a started slice clears it and lets it reach its port once more |
| `RetryProgress.BoundIsAttained` | gateway/capability_assembly_controller.py:391-466 | the bound of one call plus one per consumed receipt is attained, for every number of receipts |
| `AssemblyController.Controller.Projection` | gateway/capability_assembly_controller.py:182-183 | returns the latest checkpoint; a history that controllers wrote is never refused |
| `ControllerAnswers.AdmissionIff` | gateway/capability_assembly_controller.py:144-180 | an admission succeeds exactly when the port kept each input's path and id, the three sources differ in digest and location, and the patterns are the three required ones in order; it then yields the untouched first checkpoint, and a conflict otherwise |
| `AssemblyController.Controller.Submit` | gateway/capability_assembly_controller.py:122-180 | admits an assembly once: repetition returns what is stored; a changed request or a taken key conflicts; the admission port's first refusal is passed on; nothing but a new admission writes |
| `AssemblyController.Controller.MarkNextSliceStarted` | gateway/capability_assembly_controller.py:391-407 | appends the start marker of the next slice exactly when an advance is active, has slices left and none is started; otherwise names the refusal and writes nothing |
| `AssemblyController.Controller.ExecuteNextSlice` | gateway/capability_assembly_controller.py:369-389 | with an unspent start marker a typed answer closes its slice exactly when it is acceptable, and the result is the closed checkpoint; in production it is readable under its start's scope; a port's error is passed on without a write |
| `ControllerAnswers.AcceptedAnswerCloses` | gateway/capability_assembly_controller.py:669-748 | with an unspent start marker nothing but the answer's acceptability decides, in production or outside it |
| `AssemblyController.Controller.ReconcileStartedSlice` | gateway/capability_assembly_controller.py:409-467 | a retry receipt for exactly this start clears it if and only if it was never consumed, and is consumed with it; a recorded result closes it if and only if it is for this start and acceptable; nothing else writes |
| `AssemblyController.Controller.ClaimAdvance` | gateway/capability_assembly_controller.py:185-221 | takes, resumes or refuses the one active advance, and writes only for a new claim over the next min(maximum, remaining) slices |
| `AssemblyController.Controller.Advance` | gateway/capability_assembly_controller.py:223-281 | a request whose operation has a receipt is answered with that very receipt if it repeats the request, and conflicts otherwise; an unknown assembly, another request digest or another active advance is refused; all this without a write. Otherwise success leaves nothing active and one new receipt that ran from the claim to min(start + maximum, 24) |
| `ControllerAnswers.AdvanceRepeats` | gateway/capability_assembly_controller.py:231-234 | what an advance returned it returns again, and writes nothing |
| `ControllerAnswers.AdvanceSucceeds` | gateway/capability_assembly_controller.py:235-281 | an advance with work to do, on an assembly without a started slice and with ports that answer acceptably, succeeds |
| `FinalEvidence.CapabilityStretch` | gateway/capability_assembly_controller.py:299-309 | the checkpoint references of a capability are those of one contiguous stretch of records, and the next capability's stretch begins where it ends |
| `FinalEvidence.StretchesCoverInputSlices` | gateway/capability_assembly_controller.py:299-309 | together the stretches are exactly the records from the first input slice up to the first resume slice |
| `FinalEvidence.ReferencesDiffer` | gateway/capability_assembly_controller.py:1136-1147 | no two records of an accepted history share a reference |
| `FinalEvidence.FinalEvidence` | gateway/capability_assembly_controller.py:283-343 | the loop over the items computes the report |
| `FinalEvidence.EvidenceAtLast` | gateway/capability_assembly_controller.py:1655-1681 | a finished item's evidence names its own release, execution and projection and books the release cost within the reservation |
| `FinalEvidence.FinishedIffReported` | gateway/capability_assembly_controller.py:283-310 | a written history is reported if and only if all 24 slices are done, every capability with a non-empty stretch; the resume-mismatch conflict never arises |
| `FinalEvidence.ReportKeepsBudget` | gateway/capability_assembly_controller.py:311-343 | the report names the dispatched resume with its spend; booked cost is at most the admitted ceiling and at most 6; the resumed execution books the release amount and reuses neither the original command nor its result |
| `FinalEvidence.ReportAddsUp` | gateway/capability_assembly_controller.py:311-343 | the booked cost is the sum of the three capabilities' costs as the last record stores them; ceiling and reservations are the request's own; the restart carries the first capability's correlation |
| `ToolBroker.Broker.Execute` | gateway/capability_benchmark_execution_service.py:120-215 | one attempt, cut short anywhere, against the specification of an attempt |
| `ToolBroker.UngrantedIsRefused` | gateway/capability_benchmark_execution_service.py:120-150 | an attempt without a stored authorization that agrees with it in every field delivers nothing and changes nothing |
| `ToolBroker.AuthorizedAttemptDelivers` | gateway/capability_benchmark_execution_service.py:139-215 | an authorized attempt that is not cut short delivers the value on record for its effect, or else its own answer, with references to it and to a receipt naming the effect, and persists just these |
| `ToolBroker.ConsistentIsRegular` | gateway/capability_benchmark_execution_service.py:139-215 | every state in which the effect happened at most once and the row agrees with it is one in which attempts deliver |
| `ToolBroker.EveryFullAttemptDelivers` | gateway/capability_benchmark_execution_service.py:120-215 | over any attempts with fixed arguments, interleaved with other calls and crashing anywhere, every full attempt delivers the answer of the first authorized attempt that reached the host |
| `ToolBroker.OneEffectOneResult` | gateway/capability_benchmark_execution_service.py:120-215 | over any attempts with fixed arguments, interleaved with other calls and crashing anywhere, the host performs the effect at most once and all delivered results are equal |
| `ToolBroker.PersistedBindsAttempts` | gateway/capability_benchmark_execution_service.py:231-262 | once persisted, another token, lease or argument delivers nothing and changes nothing |
| `ToolBroker.ChangedArgumentsPerformTwice` | gateway/capability_benchmark_execution_service.py:150-178 | a concrete sequence: changed arguments after a crash before persistence let the host perform two effects |
| `ToolBroker.UntouchedCallHasOneEffect` | gateway/capability_benchmark_execution_service.py:120-215 | from a state without any trace of a call, attempts with fixed arguments have at most one effect and pairwise equal results |
| `ToolBroker.EffectsAreDistinctHostArguments` | gateway/capability_benchmark_execution_service.py:139-180 | over any attempts, the effects performed for a call under all its arguments are as many as the distinct arguments of the attempts that reach the host |
| `ToolBroker.OneEffectIffSameHostArguments` | gateway/capability_benchmark_execution_service.py:139-180 | a call has at most one effect if and only if all attempts that reach the host, before one persists its row, carry the same arguments |
| `LeaseIssuer.IssuedIsValid` | agenten/agent_factory/leases.py:42-123 | an issued lease validates exactly from its issue until it expires |
| `LeaseIssuer.IssuedLease` | agenten/agent_factory/leases.py:42-92 | a lease is issued unless it would outlive the deadline or take n8n offline; it is the job's own in every field, for fifteen minutes, with its role's profile and capabilities |
| `LeaseIssuer.ValidIff` | agenten/agent_factory/leases.py:95-123 | a lease is valid exactly while it is active and agrees with the job, role and attempt in every field under its digest |
| `LeaseIssuer.IssuedFits` | gateway/agent_factory_dispatch_runner.py:265-321 | an issued lease is reused exactly by the same action while it is active, for a warden with ten minutes left, and by an architect across action kinds |
| `LeaseIssuer.ExactActiveLease` | gateway/agent_factory_dispatch_runner.py:265-321 | selects a lease exactly when one fitting lease is newer than all others; none fits, or two tie, otherwise |
| `LeaseIssuer.UsesWithinEnsures` | gateway/agent_factory_dispatch_runner.py:137-185 | per job, role and attempt, successful uses never outnumber successful ensures |
| `LeaseIssuer.UseReturnsLatestEnsure` | gateway/agent_factory_dispatch_runner.py:137-185 | each successful use returns the lease of the latest ensure with nothing used in between, recovery before ordinary |
| `LeaseIssuer.Issuer.EnsureFor` | gateway/agent_factory_dispatch_runner.py:84-135 | succeeds exactly when the action kind serves the role, job and integration match and the store records the chosen lease, whose integration is n8n exactly for an integrator dispatch with a released, buildable batch, which is the unique newest fitting one or else a new one, valid now, with ten minutes left for a Quality Warden; it is then authorized once |
| `LeaseIssuer.Issuer.Active` | gateway/agent_factory_dispatch_runner.py:137-185 | pops the pending authorization, recovery first, whatever the outcome, and returns its lease exactly when it was ensured for this job and is still good |
| `LeaseIssuer.RecoveryIff` | gateway/agent_factory_dispatch_runner.py:212-263 | an authorization recovers a lease exactly when it is the job's own for the attempt, issued by now and before the deadline, and names the lease's id and workspace |
| `LeaseIssuer.Issuer.EnsureRecoveryFor` | gateway/agent_factory_dispatch_runner.py:212-263 | succeeds exactly when the authorization fits the action now and names a single recorded lease that has expired and was valid when issued, and recovers that one |
| `LeaseIssuer.Issuer.RegisterN8nWorkBatch` | gateway/agent_factory_dispatch_runner.py:187-210 | binds only the job-derived batch, once, and never against a durable source |
| `RenewalChain.Authority.AuthorizationFor` | gateway/business_benchmark_live_composition.py:342-442 | every grant answered is live at that moment; a new one is the scope's next, issued now for fifteen minutes, and the only write; the bounded loop returns the live grant of the walk, or extends its free end, or refuses |
| `RenewalChain.WalkFindsEnd` | gateway/business_benchmark_live_composition.py:374-398 | on a gap-free chain the walk always ends at its last link |
| `RenewalChain.CallRefusedExactlyWhen` | gateway/business_benchmark_live_composition.py:374-398 | an undisturbed call is refused if and only if the last link has no grant, the sixteenth grant is dead, or the id of its new grant is taken |
| `RenewalChain.RunsKeepChains` | gateway/business_benchmark_live_composition.py:342-442 | over calls, failures, revocations and grants filed from elsewhere, under a monotone clock, all commands of a scope form one chain, at most 16 links long, and dead but for its last link |
| `RenewalChain.AtMostOneLiveGrant` | gateway/business_benchmark_live_composition.py:342-442 | at most one grant of a scope is live at any time |
| `RenewalChain.LiveGrantIsReturned` | gateway/business_benchmark_live_composition.py:374-393 | a live grant, wherever it came from, is returned as it is and never replaced |
| `RenewalChain.NewGrantLasts` | gateway/business_benchmark_live_composition.py:374-434 | a grant just issued is what its scope is answered for exactly the next fifteen minutes, revocation aside |
| `RenewalChain.MissingIffBare` | gateway/business_benchmark_live_composition.py:378-379 | a call answers that a grant is missing if and only if some command of its scope has none |
| `RenewalChain.MissingUntilGranted` | gateway/business_benchmark_live_composition.py:374-380 | from a link without a grant its scope is refused at every point of a run, without a write, if and only if no event of the run files a grant for that link |
| `RenewalChain.CutCallNeedsGrant` | gateway/business_benchmark_live_composition.py:400-434 | a call cut between its command and its grant, at any point where it would extend a chain, leaves such a link, with the same condition for getting past it |
| `RenewalChain.ExhaustionIsForever` | gateway/business_benchmark_live_composition.py:374-398 | a scope is refused at all later times of all runs if and only if it holds sixteen dead grants |
| `RenewalChain.RefusedOnceIsRefusedUnaided` | gateway/business_benchmark_live_composition.py:374-398 | as long as no grant is filed for a scope from elsewhere, it stays refused if and only if it is refused now |
| `RenewalChain.GrantedStays` | gateway/store.py:2224-2271 | a stored grant is never replaced or removed |
| `RenewalChain.LinkIdentity` | gateway/business_benchmark_live_composition.py:750-781 | derived command identities tell scope and position apart |
| `CostRendering.PrintParses` | gateway/capability_benchmark_execution_service.py:1213-1221 | fixed-point printing loses nothing, trailing zeros included |
| `CostRendering.StripReduces` | gateway/capability_benchmark_execution_service.py:1213-1221 | stripping the text drops exactly the trailing zero places |
| `CostRendering.RenderedIsCanonical` | gateway/capability_benchmark_execution_service.py:1213-1221 | two costs render to one text if and only if coefficient times power of ten is the same real number |
| `CostRendering.RenderedParses` | gateway/capability_benchmark_execution_service.py:1213-1221 | the rendered text is worth exactly what the cost is worth |
| `CostRendering.RenderedIsPlain` | gateway/capability_benchmark_execution_service.py:1213-1221 | the text is digits with at most one inner point and no trailing zero place |
| `Ledger.VerifyChain` | blockchain/Blockchain_modell.py:71-93 | verification succeeds exactly on linked chains, and otherwise names the first bad block and its fault |
| `Ledger.LastHashDeterminesChain` | blockchain/Blockchain_modell.py:42-56 | two verifying chains with the same last hash carry the same payloads |
| `Ledger.UnhashedFieldsAreFree` | blockchain/Blockchain_modell.py:71-80 | status, children and metadata never matter to verification |
| `Ledger.KeptHashesPinPayloads` | blockchain/Blockchain_modell.py:71-93 | under kept hashes a verifying chain still verifies if and only if no payload changed |
| `Ledger.ChildrenAreExact` | blockchain/Blockchain_modell.py:147-150 | the children of a block are all later blocks that name it as parent, once each and in order |
| `Ledger.OperationsKeepLedger` | blockchain/Blockchain_modell.py:127-176 | any sequence of operations keeps the chain verifying and every payload and hash unchanged, and the forest stays exact if and only if no block was added under a negative parent index |
| `Ledger.AddedIsForestIff` | blockchain/Blockchain_modell.py:136-153 | one added block keeps the forest exact if and only if its parent index is not negative |
| `Ledger.LedgerFromGenesis` | blockchain/Blockchain_modell.py:104-176 | every ledger grown from the genesis block verifies, with the same condition for its forest |
| `Ledger.Blockchain.constructor` | blockchain/Blockchain_modell.py:104-125 | a chain rebuilt from storage holds what was stored; empty storage starts at the genesis block |
| `Ledger.Blockchain.AddBlock` | blockchain/Blockchain_modell.py:127-153 | appends one block with the entry's own type, data, parent and status, linked to the last one, and one child reference at the position the parent index selects, or changes nothing for an index out of range |
| `Ledger.Blockchain.UpdateTaskStatus` | blockchain/Blockchain_modell.py:170-176 | gives one block the new status in place and leaves everything else, or changes nothing for an unknown index |

## Left out

- AssemblyController.Controller.ExecuteNextSlice: one controller object runs without other writers in between; interleavings and crashes are the subject of `AssemblyProtocol`.
- AssemblyController.Controller.ReconcileStartedSlice: runs without other writers in between.
- AssemblyController.Controller.Advance: runs without other writers in between.
- AssemblyController.Controller.Submit: runs without other writers in between.
- AssemblyRepository.Repository.WriteCheckpoint: SQL locking is not modelled; a transaction is one step.
- LeaseIssuer.Issuer.EnsureFor: the store's own judgement of the next action is a parameter of each call.
- LeaseIssuer.Issuer.Active: the store's own judgement of the next action is a parameter of each call.
- ToolBroker.Broker.Execute: attempts run one at a time; two overlapping attempts of one call are not modelled.
- ToolBroker.OneEffectOneResult: the host records an effect in the step that performs it, and the stored authorization of a call does not change.
- RenewalChain.Authority.AuthorizationFor: one batch, workspace and job revision per scope, so that a derived grant id is a digest of its command id; the request and canonical-form checks, which come out alike for all links of a scope, are not modelled.
- RenewalChain.RunsKeepChains: commands are filed under the identities of a chain by its own calls only, not through the command route (gateway/app.py:1404-1425).
- Ledger.Blockchain.AddBlock: in-place changes to `data` or `metadata` after append, which the source excludes from verification.
- CostRendering.RenderedIsCanonical: non-negative finite costs only; the rest of the policy document is not modelled.
- Numbers of inputs and stages are the constants 3 and 7 of the code, not parameters.
- `Decimal` values that are equal but written differently have different canonical bytes in the source; here they are one `real`.
- String patterns, JSON text, model immutability, port signature introspection and module attestation.
- FastAPI routes, bearer checks, HTTP clients, subprocesses, settings and composition roots.
- The Factory adapters, benchmark executor, resume client and Minibook publisher behind the ports: a port answers anything.
- FinalEvidence.FinalEvidence: stops before `validate_live_demo_evidence` and before the report is published.
- ProtocolCompletion.OrphanClosesIffAnswered: the tables are written by the steps of the protocol alone; a repair by hand in the database is no event of a run.
- `GatewayCapabilityReconciliation` uses a repository class that its file does not visibly import; the intended class is modelled.
- Agents, web scraping, visualisation and demo scripts.
