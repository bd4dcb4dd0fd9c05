/** Exactly which answers close a started slice, what they leave, and which retry receipts clear it: stated
 *  over the answer and the stored authorities, independently of how the controller checks them. */
module AnswerAcceptance {
  import opened Wrappers
  import opened AssemblyContracts
  import opened AssemblyTransitions
  import opened HistoryValidation
  import opened HistoryLaws
  import opened AuthorityLaws
  import opened ControllerRuns
  import opened SliceClosing
  import AssemblyProtocol
  import RecoveryRefinement

  // ---------------------------------------------------------------- stages

  /** The newest Factory observation of an item. */
  ghost function LatestFactory(item: ItemState): Option<FactoryAuthority> {
    if item.releaseAuthority.Some? then item.releaseAuthority
    else if item.benchmarkAuthority.Some? then item.benchmarkAuthority
    else item.stageAuthority
  }

  /** An observation of this stage, within the item's reservation, that carries on from the newest one without
   *  rewinding its cost. */
  ghost predicate Observes(item: ItemState, stage: Stage, a: FactoryAuthority) {
    && a.stage == stage
    && BoundTo(item, a)
    && (LatestFactory(item).Some? ==> Continues(LatestFactory(item).value, a))
  }

  /** What the stage's port must answer. */
  ghost predicate Acceptable(item: ItemState, stage: Stage, first: bool, ports: Authorities) {
    match stage
    case Evaluate =>
      ports.benchmark.Some? && ports.benchmark.value.business && Observes(item, Evaluate, ports.benchmark.value)
    case Promote =>
      && ports.factory.Some? && item.benchmarkAuthority.Some?
      && Observes(item, Promote, ports.factory.value)
      && Releases(ports.factory.value, item.benchmarkAuthority.value)
      && (first ==> ports.factory.value.controlledRecoveryId.Some?)
    case Execute =>
      ports.execution.Some? && item.releaseAuthority.Some? && Runs(ports.execution.value, item.releaseAuthority.value)
    case Project =>
      && ports.projection.Some? && item.releaseAuthority.Some? && item.executionAuthority.Some?
      && Mirrors(ports.projection.value, item.releaseAuthority.value, item.executionAuthority.value)
    case _ => ports.factory.Some? && Observes(item, stage, ports.factory.value)
  }

  /** The item with its next stage done: the answer is stored in the stage's own field. */
  ghost function Completed(item: ItemState, stage: Stage, ports: Authorities): ItemState {
    var done := item.(completedStages := item.completedStages + [stage]);
    match stage
    case Evaluate => done.(benchmarkAuthority := ports.benchmark)
    case Promote => done.(releaseAuthority := ports.factory)
    case Execute => done.(executionAuthority := ports.execution)
    case Project =>
      done.(projectionAuthority := ports.projection,
            evidence := if item.releaseAuthority.Some? && item.executionAuthority.Some? && ports.projection.Some? then
                          Some(EvidenceOf(item, item.releaseAuthority.value, item.executionAuthority.value,
                                          ports.projection.value))
                        else item.evidence)
    case _ => done.(stageAuthority := ports.factory)
  }

  /** The stage an item comes to next. */
  ghost predicate ComesNext(item: ItemState, stage: Stage) {
    |item.completedStages| < STAGES_PER_INPUT && stage == STAGES[|item.completedStages|]
  }

  lemma FactoryAcceptedIff(item: ItemState, answer: Option<FactoryAuthority>, stage: Stage)
    requires ItemLawful(item) && ComesNext(item, stage) && stage != Execute && stage != Project
    requires answer.Some? ==> answer.value.bookedCost >= 0.0
    ensures RequireFactory(item, answer, stage) ==
      if answer.None? then Refuse(Incomplete)
      else if Observes(item, stage, answer.value) then Pass
      else Refuse(Conflict)
  {
  }

  /** A stage of a lawful item closes exactly with an acceptable answer, and stores just that answer; without
   *  one it is incomplete, and with any other it conflicts. */
  lemma StageAcceptedIff(item: ItemState, stage: Stage, first: bool, ports: Authorities)
    requires ValidItem(item) && ItemLawful(item) && ValidAuthorities(ports) && ComesNext(item, stage)
    ensures ExecutedItem(item, stage, first, ports) ==
      if !FieldPresent(InputStage(stage), ports) then Failure(Incomplete)
      else if !Acceptable(item, stage, first, ports) then Failure(Conflict)
      else Success(Completed(item, stage, ports))
  {
    hide ValidItem, RequireFactory, Observes, EvidenceOf;
    StageNeverMalformed(item, stage, first, ports);
    if stage == Evaluate {
      FactoryAcceptedIff(item, ports.benchmark, stage);
    } else if stage != Execute && stage != Project {
      FactoryAcceptedIff(item, ports.factory, stage);
    }
  }

  // ---------------------------------------------------------------- resume slices

  /** The resume of the released first capability, under its own reservation. */
  ghost predicate Resumes(item: ItemState, r: ResumeAuthorization) {
    && item.releaseAuthority.Some?
    && var release := item.releaseAuthority.value;
    && r.jobId == release.jobId
    && r.correlationId == release.correlationId
    && r.capabilityId == release.capabilityId
    && r.capabilityVersion == release.capabilityVersion
    && r.reservationId == item.request.reservation.reservationId
  }

  /** A fresh execution of the release under the authorized receipt, which reuses neither the command nor the
   *  result of the original execution. */
  ghost predicate Redispatches(item: ItemState, authorization: ResumeAuthorization, e: ExecutionAuthority) {
    && item.releaseAuthority.Some? && item.executionAuthority.Some?
    && Runs(e, item.releaseAuthority.value)
    && !e.replayed
    && e.executionAuthorityId == authorization.receiptId
    && e.commandId != item.executionAuthority.value.commandId
    && e.resultId != item.executionAuthority.value.resultId
  }

  /** What the port of the started slice must answer. */
  ghost predicate AcceptableAnswer(c: Checkpoint, ports: Authorities) {
    && |c.items| == INPUTS
    && if c.completed < INPUT_SLICES then
         Acceptable(c.items[c.completed / STAGES_PER_INPUT], STAGES[c.completed % STAGES_PER_INPUT],
                    c.completed < STAGES_PER_INPUT, ports)
       else if c.completed == INPUT_SLICES then
         ports.resume.Some? && Resumes(c.items[0], ports.resume.value)
       else if c.completed == INPUT_SLICES + 1 then
         && ports.execution.Some? && c.resumeAuthorization.Some?
         && Redispatches(c.items[0], c.resumeAuthorization.value, ports.execution.value)
       else ports.execution.Some? && ports.execution == c.resumeDispatch
  }

  /** The checkpoint with its started slice done: one stage of one item, or one resume authority, stored as
   *  answered, and nothing else touched. */
  ghost function Closed(c: Checkpoint, ports: Authorities): Checkpoint {
    var index, k := c.completed / STAGES_PER_INPUT, c.completed % STAGES_PER_INPUT;
    c.(revision := c.revision + 1,
       status := if c.completed + 1 == TOTAL_SLICES then ReadyToUse else Advancing,
       completed := c.completed + 1,
       items := if index < |c.items| && index < INPUTS then
                  c.items[index := Completed(c.items[index], STAGES[k], ports)]
                else c.items,
       resumeAuthorization := if c.completed == INPUT_SLICES then ports.resume else c.resumeAuthorization,
       resumeDispatch := if c.completed == INPUT_SLICES + 1 then ports.execution else c.resumeDispatch,
       resumeReadback := if c.completed == INPUT_SLICES + 2 then ports.execution else c.resumeReadback,
       last := c.started,
       started := None)
  }

  lemma InputAcceptedIff(c: Checkpoint, ports: Authorities)
    requires Lawful(c) && c.started.Some? && c.completed < INPUT_SLICES && ValidAuthorities(ports)
    ensures |c.items| == INPUTS
    ensures Next(c, ExecuteMove(ports)) ==
      if !FieldPresent(c.started.value.kind, ports) then Failure(Incomplete)
      else if !AcceptableAnswer(c, ports) then Failure(Conflict)
      else Success(Closed(c, ports))
  {
    hide ValidCheckpoint, ShapeAccepted, Lexicographic, Tiled, ResumeLawful, OutcomesPrecede, ItemsLawful,
      RequireStageRequest, ItemLawful, ValidItem, ExecutedItem, ValidAuthorities, STAGES, Acceptable, Completed,
      FieldPresent;
    var index, k := c.completed / STAGES_PER_INPUT, c.completed % STAGES_PER_INPUT;
    StandingOf(c);
    ItemsAreValid(c);
    RecoveryRefinement.StartedSlice(c);
    StageRequestPasses(c, index);
    CompletedStages(c, index);
    StageAcceptedIff(c.items[index], STAGES[k], index == 0, ports);
    InputNeverMalformed(c, ports);
    assert c.outcomes + [] == c.outcomes;
  }

  /** What the first item of an assembly in its resume phase says about its capability. */
  lemma FirstCapability(c: Checkpoint)
    requires Lawful(c) && INPUT_SLICES <= c.completed
    ensures |c.items| == INPUTS
    ensures var item := c.items[0];
      && item.releaseAuthority.Some? && item.executionAuthority.Some? && item.evidence.Some?
      && var release, evidence := item.releaseAuthority.value, item.evidence.value;
      && evidence.jobId == release.jobId && evidence.correlationId == release.correlationId
      && evidence.capabilityId == release.capabilityId && evidence.capabilityVersion == release.capabilityVersion
      && evidence.commandId == Some(item.executionAuthority.value.commandId)
      && evidence.resultId == Some(item.executionAuthority.value.resultId)
      && 0.0 <= release.bookedCost <= item.request.reservation.maximumCost
  {
    hide ValidBinding, ShapeAccepted, Lexicographic, Tiled, OutcomesPrecede, ResumeLawful, ValidSubmit, ValidItem,
      ValidOutcome;
    CompletedStages(c, 0);
  }

  lemma ResumeAcceptedIff(c: Checkpoint, ports: Authorities)
    requires Lawful(c) && c.started.Some? && INPUT_SLICES <= c.completed && ValidAuthorities(ports)
    ensures |c.items| == INPUTS
    ensures Next(c, ExecuteMove(ports)) ==
      if !FieldPresent(c.started.value.kind, ports) then Failure(Incomplete)
      else if !AcceptableAnswer(c, ports) then Failure(Conflict)
      else Success(Closed(c, ports))
  {
    hide ValidCheckpoint, ShapeAccepted, Lexicographic, Tiled, OutcomesPrecede, ItemsLawful, RequireStageRequest,
      ValidAuthorities, Acceptable, Completed;
    StandingOf(c);
    ResumeWithinBounds(c);
    RecoveryRefinement.StartedSlice(c);
    StageRequestPasses(c, 0);
    ResumePresence(c);
    FirstCapability(c);
    ResumeNeverMalformed(c, ports);
    assert c.outcomes + [] == c.outcomes;
  }

  /** A started slice closes exactly with an acceptable answer, and leaves exactly that answer; it is incomplete
   *  without the port's field, and conflicts otherwise. */
  lemma AnswerAcceptedIff(c: Checkpoint, ports: Authorities)
    requires Lawful(c) && c.started.Some? && ValidAuthorities(ports)
    ensures AcceptableAnswer(c, ports) ==> FieldPresent(c.started.value.kind, ports)
    ensures Next(c, ExecuteMove(ports)) ==
      if !FieldPresent(c.started.value.kind, ports) then Failure(Incomplete)
      else if !AcceptableAnswer(c, ports) then Failure(Conflict)
      else Success(Closed(c, ports))
  {
    hide Lawful, Next, ValidAuthorities, FieldPresent, AcceptableAnswer, Closed;
    if AcceptableAnswer(c, ports) {
      AcceptableHasField(c, ports);
    }
    if c.completed < INPUT_SLICES {
      InputAcceptedIff(c, ports);
    } else {
      ResumeAcceptedIff(c, ports);
    }
  }

  lemma AcceptableHasField(c: Checkpoint, ports: Authorities)
    requires Lawful(c) && c.started.Some? && AcceptableAnswer(c, ports)
    ensures FieldPresent(c.started.value.kind, ports)
  {
    hide ValidCheckpoint, ShapeAccepted, Lexicographic, Tiled, ResumeLawful, OutcomesPrecede, ItemsLawful, Observes,
      Releases, Runs, Mirrors;
    StandingOf(c);
    RecoveryRefinement.StartedSlice(c);
  }

  // ---------------------------------------------------------------- reconciliation

  /** The one scope under which the started slice is effected and asked about. */
  ghost function StartedScope(c: Checkpoint): ReconciliationRequest
    requires c.active.Some? && c.started.Some?
  {
    ReconciliationRequest(c.assemblyId, c.active.value.operationId, c.requestSha, c.started.value,
                          ArtifactRef(CheckpointLocation(OfCheckpoint(c)), OfCheckpoint(c), true))
  }

  lemma StartedHasScope(c: Checkpoint)
    requires Lawful(c) && c.started.Some?
    ensures c.active.Some? && AssemblyProtocol.StartScope(c) == Success(StartedScope(c))
  {
    hide ValidParts, ShapeAccepted, Lexicographic, Tiled, OutcomesPrecede, ItemsLawful, ResumeLawful;
  }

  /** The checkpoint cleared for another attempt: nothing started, and the answer recorded. */
  ghost function Cleared(c: Checkpoint, answer: Outcome): Checkpoint {
    c.(revision := c.revision + 1, started := None, outcomes := c.outcomes + [answer])
  }

  /** No recorded outcome of the checkpoint carries the receipt. */
  ghost predicate Unrecorded(c: Checkpoint, receiptId: Uuid) {
    forall i :: 0 <= i < |c.outcomes| && c.outcomes[i].retry.Some? ==> c.outcomes[i].retry.value.receiptId != receiptId
  }

  lemma ClearedIsValid(c: Checkpoint, answer: Outcome)
    requires Lawful(c) && c.started.Some? && c.active.Some? && ValidOutcome(answer)
    requires answer.disposition == RetryAuthorizedNoEffect && answer.scope == StartedScope(c)
    requires answer.retry.Some? && Unrecorded(c, answer.retry.value.receiptId)
    ensures ValidCheckpoint(Cleared(c, answer))
  {
    hide ValidSubmit, ValidItem, ValidOutcome, ShapeAccepted, Lexicographic, Tiled, ItemsLawful, ResumeLawful,
      DistinctReceipts, ValidReceipt, ValidActive, OutcomesClash;
    OutcomesStayDistinct(c, answer);
  }

  /** Earlier outcomes are about earlier records, so only a repeated receipt can clash. */
  lemma OutcomesStayDistinct(c: Checkpoint, answer: Outcome)
    requires OutcomesPrecede(c) && DistinctOutcomes(c.outcomes)
    requires answer.scope.startedRef.sha256 == OfCheckpoint(c)
    requires answer.retry.Some? && Unrecorded(c, answer.retry.value.receiptId)
    ensures DistinctOutcomes(c.outcomes + [answer])
  {
    var all := c.outcomes + [answer];
    forall i, j | 0 <= i < j < |all|
      ensures !OutcomesClash(all[i], all[j])
    {
      if j < |c.outcomes| {
        assert !OutcomesClash(c.outcomes[i], c.outcomes[j]);
      }
    }
  }

  /** A retry receipt for exactly the started slice clears it if and only if no outcome carries the receipt. */
  lemma RetryClearsIff(c: Checkpoint, answer: Outcome)
    requires Lawful(c) && c.started.Some? && ValidOutcome(answer)
    requires answer.disposition == RetryAuthorizedNoEffect
    ensures c.active.Some? && answer.retry.Some?
    ensures Next(c, ReconcileMove(answer)) ==
      if answer.scope == StartedScope(c) && Unrecorded(c, answer.retry.value.receiptId) then Success(Cleared(c, answer))
      else Failure(Conflict)
  {
    hide ValidCheckpoint, ShapeAccepted, Lexicographic, Tiled, OutcomesPrecede, ItemsLawful, ResumeLawful,
      CompleteFromReconciliation;
    StartedHasScope(c);
    RetryIsPresent(answer);
    if answer.scope == StartedScope(c) && Unrecorded(c, answer.retry.value.receiptId) {
      ClearedIsValid(c, answer);
    }
  }

  lemma RetryIsPresent(answer: Outcome)
    requires ValidOutcome(answer) && answer.disposition == RetryAuthorizedNoEffect
    ensures answer.retry.Some?
  {
  }

  /** A recorded result closes exactly the slice it was recorded for, exactly when executing it would have
   *  been accepted, and is kept as an outcome. */
  lemma ReadbackClosesIff(c: Checkpoint, answer: Outcome)
    requires Lawful(c) && c.started.Some? && ValidOutcome(answer) && answer.disposition == TerminalReadback
    ensures c.active.Some?
    ensures Next(c, ReconcileMove(answer)).Success?
      <==> answer.scope == StartedScope(c) && AcceptableAnswer(c, answer.authorities)
    ensures answer.scope != StartedScope(c) ==> Next(c, ReconcileMove(answer)) == Failure(Conflict)
    ensures Next(c, ReconcileMove(answer)).Success? ==>
      Next(c, ReconcileMove(answer)).value == Closed(c, answer.authorities).(outcomes := c.outcomes + [answer])
  {
    hide Lawful, AcceptableAnswer, Closed, CompleteFromReconciliation, ExecuteSlice;
    StartedHasScope(c);
    if answer.scope == StartedScope(c) {
      RecoveryRefinement.RecoveryRefinesExecution(c, answer);
      AnswerAcceptedIff(c, answer.authorities);
      AnswerHasField(c, answer);
    }
  }

  lemma AnswerHasField(c: Checkpoint, answer: Outcome)
    requires ValidOutcome(answer) && answer.disposition == TerminalReadback
    requires c.started.Some? && answer.scope.startedSlice == c.started.value
    ensures FieldPresent(c.started.value.kind, answer.authorities) && ValidAuthorities(answer.authorities)
  {
  }
}
