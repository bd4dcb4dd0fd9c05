/** A started slice can only be refused for what its port answered: everything the controller checks
 *  before the port holds, and so does the validation of the checkpoint that closes the slice. */
module SliceClosing {
  import opened Wrappers
  import opened AssemblyContracts
  import opened AssemblyTransitions
  import opened HistoryValidation
  import opened HistoryLaws
  import opened AuthorityLaws
  import opened ControllerRuns
  import RecoveryRefinement
  import AssemblyProtocol

  /** The stage request of a lawful started checkpoint validates. */
  lemma StageRequestPasses(c: Checkpoint, index: nat)
    requires Lawful(c) && c.started.Some? && index < INPUTS
    ensures RequireStageRequest(c, c.items[index]).Pass?
  {
    hide ValidItem, ValidOutcome, ShapeAccepted, Lexicographic, Tiled, ResumeLawful, OutcomesPrecede, PresentByStage,
      DistinctOutcomes, DistinctReceipts;
    assert ItemLawful(c.items[index]) && ValidInputRequest(c.request.inputs[index]);
  }

  lemma CompletedStages(c: Checkpoint, index: nat)
    requires Lawful(c) && index < INPUTS
    ensures |c.items[index].completedStages| == Clamp(c.completed - STAGES_PER_INPUT * index, STAGES_PER_INPUT)
    ensures ItemLawful(c.items[index])
  {
    hide ValidCheckpoint, ShapeAccepted, Tiled, ResumeLawful, OutcomesPrecede, ItemLawful;
  }

  /** Every check before the port passes. */
  lemma LawfulIsCallable(c: Checkpoint)
    requires Lawful(c) && c.started.Some?
    ensures AssemblyProtocol.Callable(c)
  {
    hide ValidCheckpoint, ShapeAccepted, Lexicographic, Tiled, ResumeLawful, OutcomesPrecede, ItemsLawful,
      RequireStageRequest, ItemLawful;
    StandingOf(c);
    RecoveryRefinement.StartedSlice(c);
    if c.completed < INPUT_SLICES {
      var index := c.completed / STAGES_PER_INPUT;
      StageRequestPasses(c, index);
      CompletedStages(c, index);
      ItemPresence(c.items[index]);
    } else {
      RecoveryRefinement.FinishedItemHasEvidence(c);
      ResumePresence(c);
    }
  }

  lemma StandingOf(c: Checkpoint)
    requires Lawful(c)
    ensures Standing(c) && ValidCheckpoint(c) && ItemsLawful(c)
  {
    hide ValidCheckpoint, ShapeAccepted, Lexicographic, Tiled, ResumeLawful, OutcomesPrecede, ItemsLawful;
  }

  lemma ItemPresence(item: ItemState)
    requires ItemLawful(item)
    ensures PresentByStage(item)
  {
  }

  lemma ResumePresence(c: Checkpoint)
    requires Standing(c) && INPUT_SLICES <= c.completed
    ensures c.completed > INPUT_SLICES ==> c.resumeAuthorization.Some?
    ensures c.completed > INPUT_SLICES + 1 ==> c.resumeDispatch.Some?
  {
    hide ValidParts, ShapeAccepted;
  }

  /** A stage closes with a valid item whenever its checks accept the port's typed answer. */
  lemma StageNeverMalformed(item: ItemState, stage: Stage, first: bool, ports: Authorities)
    requires ValidItem(item) && ItemLawful(item) && ValidAuthorities(ports)
    requires |item.completedStages| < STAGES_PER_INPUT && stage == STAGES[|item.completedStages|]
    ensures ExecutedItem(item, stage, first, ports) != Failure(Malformed)
    ensures ExecutedItem(item, stage, first, ports).Success? ==>
      ValidItem(ExecutedItem(item, stage, first, ports).value)
  {
    StagePrefixExtends(|item.completedStages|);
  }

  /** The checkpoint that closes an input slice of a lawful start is valid. */
  lemma InputAppendIsValid(c: Checkpoint, index: nat, k: nat, done: ItemState, slice: Slice)
    requires Lawful(c) && c.started.Some? && index < INPUTS && k < STAGES_PER_INPUT
    requires c.completed == STAGES_PER_INPUT * index + k
    requires ValidItem(done) && done.request == c.items[index].request
    requires |done.completedStages| == k + 1 && slice.ordinal < TOTAL_SLICES
    ensures AppendSlice(c, c.items[index := done], slice, NO_RESUME, Advancing, None).Success?
  {
    hide ValidSubmit, ValidItem, ValidOutcome, ShapeAccepted, Tiled, ResumeLawful, OutcomesPrecede, DistinctOutcomes,
      DistinctReceipts, ItemsLawful, Lexicographic, ValidActive, ValidReceipt, STAGES;
    CompletedStages(c, index);
    assert c.outcomes + [] == c.outcomes;
  }

  lemma InputNeverMalformed(c: Checkpoint, ports: Authorities)
    requires Lawful(c) && c.started.Some? && c.completed < INPUT_SLICES && ValidAuthorities(ports)
    ensures ExecuteSlice(c, ports) != Failure(Malformed)
  {
    hide ValidParts, ValidBinding, ShapeAccepted, Lexicographic, Tiled, ResumeLawful, OutcomesPrecede, ItemsLawful,
      RequireStageRequest, ItemLawful, ValidItem, AppendSlice, ExecutedItem, ValidAuthorities, STAGES;
    var index, k := c.completed / STAGES_PER_INPUT, c.completed % STAGES_PER_INPUT;
    StandingOf(c);
    ItemsAreValid(c);
    StageRequestPasses(c, index);
    CompletedStages(c, index);
    StageNeverMalformed(c.items[index], STAGES[k], index == 0, ports);
    var done := ExecutedItem(c.items[index], STAGES[k], index == 0, ports);
    if done.Success? {
      ExecutedItemKeepsLaws(c.items[index], STAGES[k], index == 0, ports, done.value);
      OneStageMore(c.items[index], STAGES[k], done.value);
      InputAppendIsValid(c, index, k, done.value,
                         Slice(c.completed, InputStage(STAGES[k]), Some(c.items[index].request.inputId)));
    }
  }

  lemma ItemsAreValid(c: Checkpoint)
    requires ValidCheckpoint(c)
    ensures |c.items| == INPUTS && |STAGES| == STAGES_PER_INPUT && forall i :: 0 <= i < INPUTS ==> ValidItem(c.items[i])
  {
    hide ValidBinding, ValidItem, ValidSubmit, ValidOutcome;
  }

  lemma OneStageMore(item: ItemState, stage: Stage, done: ItemState)
    requires done == WithAllowedChanges(item, done, stage)
    ensures |done.completedStages| == |item.completedStages| + 1
  {
  }

  /** The checkpoint that closes a resume slice of a lawful start is valid. */
  lemma ResumeAppendIsValid(c: Checkpoint, resume: ResumeChange, slice: Slice)
    requires Lawful(c) && c.started.Some? && INPUT_SLICES <= c.completed && slice.ordinal < TOTAL_SLICES
    requires resume.authorization.Some? <==> c.completed == INPUT_SLICES
    requires resume.dispatch.Some? <==> c.completed == INPUT_SLICES + 1
    requires resume.readback.Some? <==> c.completed == INPUT_SLICES + 2
    requires resume.dispatch.Some? ==> resume.dispatch.value.bookedCost >= 0.0
    requires resume.readback.Some? ==> resume.readback.value.bookedCost >= 0.0
    ensures AppendSlice(c, c.items, slice, resume, ResumeStatus(c), None).Success?
  {
    hide ValidSubmit, ValidItem, ValidOutcome, ShapeAccepted, Tiled, ResumeLawful, OutcomesPrecede, DistinctOutcomes,
      DistinctReceipts, ItemsLawful, ValidActive, ValidReceipt, STAGES;
    StandingOf(c);
    ResumeWithinBounds(c);
    assert c.outcomes + [] == c.outcomes;
  }

  lemma ResumeNeverMalformed(c: Checkpoint, ports: Authorities)
    requires Lawful(c) && c.started.Some? && INPUT_SLICES <= c.completed && ValidAuthorities(ports)
    ensures ExecuteSlice(c, ports) != Failure(Malformed)
  {
    hide ValidParts, ValidBinding, ShapeAccepted, Lexicographic, Tiled, ResumeLawful, OutcomesPrecede, ItemsLawful,
      RequireStageRequest, AppendSlice, RequireExecution, RequireFreshIdentity, RequireResumeAuthorization;
    StandingOf(c);
    ResumeWithinBounds(c);
    ItemsAreValid(c);
    StageRequestPasses(c, 0);
    ResumePresence(c);
    RefusalsAreNotMalformed(c, ports);
    if c.completed == INPUT_SLICES && ports.resume.Some? {
      ResumeAppendIsValid(c, NO_RESUME.(authorization := ports.resume), Slice(c.completed, ResumeAuthorize, None));
    } else if c.completed == INPUT_SLICES + 1 && ports.execution.Some? {
      ResumeAppendIsValid(c, NO_RESUME.(dispatch := ports.execution), Slice(c.completed, ResumeDispatch, None));
    } else if c.completed == INPUT_SLICES + 2 && ports.execution.Some? {
      ResumeAppendIsValid(c, NO_RESUME.(readback := ports.execution), Slice(c.completed, ResumeReadback, None));
    }
  }

  lemma RefusalsAreNotMalformed(c: Checkpoint, ports: Authorities)
    requires |c.items| == INPUTS
    ensures forall release, execution, resumed ::
      RequireExecution(c.items[0], release, execution, resumed) != Refuse(Malformed)
    ensures forall execution :: RequireFreshIdentity(c.items[0], execution) != Refuse(Malformed)
    ensures forall authorization :: RequireResumeAuthorization(c.items[0], authorization) != Refuse(Malformed)
    ensures forall release, resumed ::
      RequireExecution(c.items[0], release, ports.execution, resumed).Pass? ==> ports.execution.Some?
  {
  }

  /** Executing a lawful started slice fails only as a conflict or as incomplete evidence, never by the
   *  validation of what it would write: nothing can fail between the terminal record and the append. */
  lemma TypedAnswerNeverMalformed(c: Checkpoint, ports: Authorities)
    requires Lawful(c) && c.started.Some? && ValidAuthorities(ports)
    ensures AssemblyProtocol.Callable(c)
    ensures Next(c, ExecuteMove(ports)) != Failure(Malformed)
  {
    hide Lawful, ExecuteSlice, AssemblyProtocol.Callable, ValidAuthorities;
    LawfulIsCallable(c);
    if c.completed < INPUT_SLICES {
      InputNeverMalformed(c, ports);
    } else {
      ResumeNeverMalformed(c, ports);
    }
  }

  // ---------------------------------------------------------------- an answer that every check accepts

  const ANY_REF := ArtifactRef(Location(0), Raw(0), true)

  /** The observation a new one continues: the benchmark, or else the last Factory stage. */
  function BaseAuthority(item: ItemState): FactoryAuthority {
    if item.benchmarkAuthority.Some? then item.benchmarkAuthority.value
    else if item.stageAuthority.Some? then item.stageAuthority.value
    else
      FactoryAuthority(
        Scaffold, item.admitted.input.inputId, item.admitted.input.sourceRef, 0, item.request.correlationId, "", 0,
        ANY_REF, ANY_REF, 0.0, None, [], None, None, None, false, 0)
  }

  /** A Factory answer to a stage: same capability and references, and no further cost. */
  function FactoryAnswer(item: ItemState, stage: Stage): FactoryAuthority {
    var base := BaseAuthority(item).(
      stage := stage, bookedCost := LatestCost(item), controlledRecoveryId := Some(0), releaseAuthorityId := Some(0),
      business := stage == Evaluate);
    if stage == Promote then base
    else
      base.(normalTraceIds := [0, 1, 2], benchmarkAuthorityId := Some(0), benchmarkSummaryRef := Some(ANY_REF))
  }

  /** A fresh execution of the release. */
  function ExecutionAnswer(release: FactoryAuthority, authorityId: Uuid, commandId: Uuid, resultId: Uuid)
    : ExecutionAuthority
  {
    ExecutionAuthority(release.jobId, release.correlationId, release.capabilityId, release.capabilityVersion,
                       authorityId, commandId, resultId, release.bookedCost, Succeeded, false, None, false, 0)
  }

  function ProjectionAnswer(release: FactoryAuthority, e: ExecutionAuthority): ProjectionAuthority {
    ProjectionAuthority(release.jobId, release.correlationId, release.capabilityId, release.capabilityVersion,
                        e.commandId, e.resultId, 0, 0, 0)
  }

  function StageAnswer(item: ItemState, stage: Stage): Authorities {
    match stage
    case Evaluate => NO_AUTHORITY.(benchmark := Some(FactoryAnswer(item, stage)))
    case Execute =>
      if item.releaseAuthority.None? then NO_AUTHORITY
      else NO_AUTHORITY.(execution := Some(ExecutionAnswer(item.releaseAuthority.value, 0, 0, 0)))
    case Project =>
      if item.releaseAuthority.None? || item.executionAuthority.None? then NO_AUTHORITY
      else
        NO_AUTHORITY.(projection :=
          Some(ProjectionAnswer(item.releaseAuthority.value, item.executionAuthority.value)))
    case _ => NO_AUTHORITY.(factory := Some(FactoryAnswer(item, stage)))
  }

  lemma StageAnswerIsTyped(item: ItemState, stage: Stage)
    requires ValidItem(item) && ItemLawful(item) && LatestCost(item) <= item.request.reservation.maximumCost
    requires |item.completedStages| < STAGES_PER_INPUT && stage == STAGES[|item.completedStages|]
    ensures ValidAuthorities(StageAnswer(item, stage))
  {
    hide EvidenceOf;
  }

  /** Every stage of a lawful item has an answer that its checks accept. */
  lemma StageIsAnswerable(item: ItemState, stage: Stage, first: bool)
    requires ValidItem(item) && ItemLawful(item) && LatestCost(item) <= item.request.reservation.maximumCost
    requires |item.completedStages| < STAGES_PER_INPUT && stage == STAGES[|item.completedStages|]
    ensures ExecutedItem(item, stage, first, StageAnswer(item, stage)).Success?
  {
    hide ValidItem, ValidAuthorities, EvidenceOf;
    StageAnswerIsTyped(item, stage);
    StageNeverMalformed(item, stage, first, StageAnswer(item, stage));
  }

  function ResumeAnswer(c: Checkpoint): Authorities
    requires |c.items| == INPUTS && c.items[0].evidence.Some?
  {
    var first, e := c.items[0], c.items[0].evidence.value;
    if c.completed == INPUT_SLICES then
      NO_AUTHORITY.(resume := Some(ResumeAuthorization(
        e.jobId, first.request.reservation.reservationId, e.correlationId, e.capabilityId, e.capabilityVersion, 0, 0)))
    else if c.completed == INPUT_SLICES + 1 then
      if c.resumeAuthorization.None? || first.releaseAuthority.None? || e.commandId.None? || e.resultId.None? then
        NO_AUTHORITY
      else
        NO_AUTHORITY.(execution := Some(ExecutionAnswer(
          first.releaseAuthority.value, c.resumeAuthorization.value.receiptId, e.commandId.value + 1,
          e.resultId.value + 1)))
    else NO_AUTHORITY.(execution := c.resumeDispatch)
  }

  lemma ResumeIsAnswerable(c: Checkpoint)
    requires Lawful(c) && c.started.Some? && INPUT_SLICES <= c.completed
    ensures |c.items| == INPUTS && c.items[0].evidence.Some?
    ensures ValidAuthorities(ResumeAnswer(c)) && ExecuteSlice(c, ResumeAnswer(c)).Success?
  {
    hide ValidCheckpoint, ShapeAccepted, Lexicographic, Tiled, OutcomesPrecede, ItemsLawful, RequireStageRequest;
    StandingOf(c);
    ResumeWithinBounds(c);
    RecoveryRefinement.FinishedItemHasEvidence(c);
    StageRequestPasses(c, 0);
    ResumePresence(c);
    FirstItemReleased(c);
    ResumeNeverMalformed(c, ResumeAnswer(c));
  }

  /** What the first item of an assembly in its resume phase holds. */
  lemma FirstItemReleased(c: Checkpoint)
    requires Lawful(c) && INPUT_SLICES <= c.completed
    ensures c.items[0].releaseAuthority.Some?
    ensures 0.0 <= c.items[0].releaseAuthority.value.bookedCost <= c.items[0].request.reservation.maximumCost
    ensures c.resumeDispatch.Some? ==> c.resumeDispatch.value.bookedCost >= 0.0
  {
    hide ValidBinding, ShapeAccepted, Lexicographic, Tiled, OutcomesPrecede, ResumeLawful, ValidSubmit, ValidItem,
      ValidOutcome;
    CompletedStages(c, 0);
  }

  /** Every started slice of a lawful checkpoint has a typed answer that closes it. */
  lemma SliceIsAnswerable(c: Checkpoint) returns (answer: Authorities)
    requires Lawful(c) && c.started.Some?
    ensures ValidAuthorities(answer) && Next(c, ExecuteMove(answer)).Success?
  {
    hide ValidCheckpoint, ShapeAccepted, Lexicographic, Tiled, ResumeLawful, OutcomesPrecede, ItemsLawful,
      RequireStageRequest, ItemLawful, ValidItem, ExecutedItem, ValidAuthorities, STAGES, ResumeAnswer, StageAnswer;
    if c.completed < INPUT_SLICES {
      var index, k := c.completed / STAGES_PER_INPUT, c.completed % STAGES_PER_INPUT;
      StandingOf(c);
      ItemsAreValid(c);
      StageRequestPasses(c, index);
      CompletedStages(c, index);
      LawfulItemStands(c, index);
      StageAnswerIsTyped(c.items[index], STAGES[k]);
      StageIsAnswerable(c.items[index], STAGES[k], index == 0);
      answer := StageAnswer(c.items[index], STAGES[k]);
      InputNeverMalformed(c, answer);
    } else {
      ResumeIsAnswerable(c);
      answer := ResumeAnswer(c);
    }
  }
}
