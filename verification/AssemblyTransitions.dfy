/** The decisions of gateway/capability_assembly_controller.py that turn one checkpoint into the next. */
module AssemblyTransitions {
  import opened Wrappers
  import opened AssemblyContracts

  // ---------------------------------------------------------------- slices

  /** The slice an ordinal names; an ordinal past the last slice raises in the source.
   *  A checkpoint always holds three items, so the first branch only keeps the function total. */
  function SliceFor(ordinal: nat, c: Checkpoint): Option<Slice> {
    if |c.items| != INPUTS then
      None
    else if ordinal < INPUT_SLICES then
      Some(Slice(ordinal, InputStage(STAGES[ordinal % STAGES_PER_INPUT]),
                 Some(c.items[ordinal / STAGES_PER_INPUT].request.inputId)))
    else if ordinal < TOTAL_SLICES then
      Some(Slice(ordinal, RESUME_KINDS[ordinal - INPUT_SLICES], None))
    else
      None
  }

  /** Position of the first item with this input id, or the number of items. */
  function ItemIndex(items: seq<ItemState>, inputId: string): (i: nat)
    ensures i <= |items|
    ensures i < |items| ==> items[i].request.inputId == inputId
    ensures forall j :: 0 <= j < i ==> items[j].request.inputId != inputId
  {
    if items == [] then 0
    else if items[0].request.inputId == inputId then 0
    else 1 + ItemIndex(items[1..], inputId)
  }

  // ---------------------------------------------------------------- authority checks

  function SuiteRef(item: ItemState): Option<ArtifactRef> {
    if item.releaseAuthority.Some? then Some(item.releaseAuthority.value.suiteRef)
    else if item.benchmarkAuthority.Some? then Some(item.benchmarkAuthority.value.suiteRef)
    else if item.stageAuthority.Some? then Some(item.stageAuthority.value.suiteRef)
    else None
  }

  function HermesRef(item: ItemState): Option<ArtifactRef> {
    if item.releaseAuthority.Some? then Some(item.releaseAuthority.value.hermesRef)
    else if item.benchmarkAuthority.Some? then Some(item.benchmarkAuthority.value.hermesRef)
    else if item.stageAuthority.Some? then Some(item.stageAuthority.value.hermesRef)
    else None
  }

  function LatestCost(item: ItemState): real {
    if item.executionAuthority.Some? then item.executionAuthority.value.bookedCost
    else if item.releaseAuthority.Some? then item.releaseAuthority.value.bookedCost
    else if item.benchmarkAuthority.Some? then item.benchmarkAuthority.value.bookedCost
    else if item.stageAuthority.Some? then item.stageAuthority.value.bookedCost
    else 0.0
  }

  /** A Factory answer must describe this stage of this item and may not rewind it. */
  function RequireFactory(item: ItemState, authority: Option<FactoryAuthority>, expected: Stage): Check {
    if authority.None? then Refuse(Incomplete)
    else
      var a := authority.value;
      var suite, hermes, prior := SuiteRef(item), HermesRef(item), item.stageAuthority;
      Need(
        && a.stage == expected
        && a.inputId == item.admitted.input.inputId
        && a.sourceRef == item.admitted.input.sourceRef
        && a.correlationId == item.request.correlationId
        && a.bookedCost <= item.request.reservation.maximumCost
        && (suite.Some? ==> a.suiteRef == suite.value)
        && (hermes.Some? ==> a.hermesRef == hermes.value)
        && (prior.Some? ==>
              && a.jobId == prior.value.jobId
              && a.capabilityId == prior.value.capabilityId
              && a.capabilityVersion == prior.value.capabilityVersion)
        && a.bookedCost >= LatestCost(item), Conflict)
  }

  function RequireRelease(authority: Option<FactoryAuthority>, item: ItemState, controlledRecovery: bool): Check {
    if authority.None? || item.benchmarkAuthority.None? then Refuse(Incomplete)
    else
      var a, b := authority.value, item.benchmarkAuthority.value;
      Need(
        && a.benchmarkAuthorityId == b.benchmarkAuthorityId
        && a.benchmarkSummaryRef == b.benchmarkSummaryRef
        && a.normalTraceIds == b.normalTraceIds
        && a.releaseAuthorityId.Some?
        && (controlledRecovery ==> a.controlledRecoveryId.Some?), Conflict)
  }

  function RequireExecution(
    item: ItemState, release: FactoryAuthority, execution: Option<ExecutionAuthority>, freshResume: bool): Check
  {
    if execution.None? then Refuse(Incomplete)
    else
      var e := execution.value;
      Need(
        && e.jobId == release.jobId
        && e.correlationId == release.correlationId
        && e.capabilityId == release.capabilityId
        && e.capabilityVersion == release.capabilityVersion
        && e.bookedCost == release.bookedCost
        && e.bookedCost <= item.request.reservation.maximumCost
        && e.terminalStatus == Succeeded
        && !(freshResume && e.replayed), Conflict)
  }

  function RequireProjection(
    release: FactoryAuthority, execution: ExecutionAuthority, projection: Option<ProjectionAuthority>): Check
  {
    if projection.None? then Refuse(Incomplete)
    else
      var p := projection.value;
      Need(
        && p.jobId == release.jobId
        && p.correlationId == release.correlationId
        && p.capabilityId == release.capabilityId
        && p.capabilityVersion == release.capabilityVersion
        && p.commandId == execution.commandId
        && p.resultId == execution.resultId, Conflict)
  }

  function RequireFreshIdentity(item: ItemState, execution: ExecutionAuthority): Check {
    if item.evidence.None? then Refuse(Incomplete)
    else
      Need(
        && Some(execution.commandId) != item.evidence.value.commandId
        && Some(execution.resultId) != item.evidence.value.resultId, Conflict)
  }

  function RequireResumeAuthorization(item: ItemState, a: ResumeAuthorization): Check {
    if item.evidence.None? then Refuse(Incomplete)
    else
      var first := item.evidence.value;
      Need(
        && a.jobId == first.jobId
        && a.reservationId == item.request.reservation.reservationId
        && a.correlationId == first.correlationId
        && a.capabilityId == first.capabilityId
        && a.capabilityVersion == first.capabilityVersion, Conflict)
  }

  function EvidenceOf(
    item: ItemState, release: FactoryAuthority, execution: ExecutionAuthority, projection: ProjectionAuthority)
    : CapabilityEvidence
  {
    CapabilityEvidence(
      item.request.inputId, item.admitted.input.pattern, release.jobId, release.correlationId,
      release.capabilityId, release.capabilityVersion, release.controlledRecoveryId, release.normalTraceIds,
      release.releaseAuthorityId, Some(execution.executionAuthorityId), Some(execution.commandId),
      Some(execution.resultId), Some(projection.eventId), Some(projection.readbackId),
      Some(release.suiteRef), Some(release.hermesRef), execution.bookedCost, [])
  }

  /** The stage request validates against the reservation, and needs a started slice for its scope. */
  function RequireStageRequest(c: Checkpoint, item: ItemState): Check {
    if c.active.None? || c.started.None? then Refuse(Conflict)
    else
      Need(
        && item.request.reservation.runId == c.assemblyId
        && item.request.reservation.inputId == item.admitted.input.inputId, Malformed)
  }

  // ---------------------------------------------------------------- closing a slice

  function ValidatedItem(item: ItemState): Result<ItemState> {
    if ValidItem(item) then Success(item) else Failure(Malformed)
  }

  function ValidatedCheckpoint(c: Checkpoint): Result<Checkpoint> {
    if ValidCheckpoint(c) then Success(c) else Failure(Malformed)
  }

  /** What one completed slice adds besides its item. */
  datatype ResumeChange = ResumeChange(
    authorization: Option<ResumeAuthorization>, dispatch: Option<ExecutionAuthority>,
    readback: Option<ExecutionAuthority>)

  const NO_RESUME := ResumeChange(None, None, None)

  function Either<T>(update: Option<T>, existing: Option<T>): Option<T> {
    if update.Some? then update else existing
  }

  function AppendSlice(
    current: Checkpoint, items: seq<ItemState>, slice: Slice, resume: ResumeChange, status: Status,
    outcome: Option<Outcome>): Result<Checkpoint>
  {
    ValidatedCheckpoint(current.(
      revision := current.revision + 1,
      status := status,
      completed := current.completed + 1,
      items := items,
      resumeAuthorization := Either(resume.authorization, current.resumeAuthorization),
      resumeDispatch := Either(resume.dispatch, current.resumeDispatch),
      resumeReadback := Either(resume.readback, current.resumeReadback),
      last := Some(slice),
      started := None,
      outcomes := current.outcomes + if outcome.Some? then [outcome.value] else []))
  }

  // ---------------------------------------------------------------- direct execution

  /** The item after one stage, from what the stage's port answered. */
  function ExecutedItem(item: ItemState, stage: Stage, first: bool, ports: Authorities): Result<ItemState> {
    var done := item.(completedStages := item.completedStages + [stage]);
    match stage
    case Scaffold =>
      :- RequireFactory(item, ports.factory, Scaffold);
      ValidatedItem(done.(stageAuthority := ports.factory))
    case Implement =>
      :- RequireFactory(item, ports.factory, Implement);
      ValidatedItem(done.(stageAuthority := ports.factory))
    case Seal =>
      :- RequireFactory(item, ports.factory, Seal);
      ValidatedItem(done.(stageAuthority := ports.factory))
    case Evaluate =>
      :- RequireFactory(item, ports.benchmark, Evaluate);
      :- Need(ports.benchmark.Some? && ports.benchmark.value.business, Conflict);
      ValidatedItem(done.(benchmarkAuthority := ports.benchmark))
    case Promote =>
      :- RequireFactory(item, ports.factory, Promote);
      :- RequireRelease(ports.factory, item, first);
      ValidatedItem(done.(releaseAuthority := ports.factory))
    case Execute =>
      :- Need(item.releaseAuthority.Some?, Incomplete);
      :- RequireExecution(item, item.releaseAuthority.value, ports.execution, false);
      ValidatedItem(done.(executionAuthority := ports.execution))
    case Project =>
      :- Need(item.releaseAuthority.Some? && item.executionAuthority.Some?, Incomplete);
      :- RequireProjection(item.releaseAuthority.value, item.executionAuthority.value, ports.projection);
      ValidatedItem(done.(
        projectionAuthority := ports.projection,
        evidence := Some(EvidenceOf(
          item, item.releaseAuthority.value, item.executionAuthority.value, ports.projection.value))))
  }

  function ExecuteInputStage(current: Checkpoint, index: nat, stage: Stage, ports: Authorities): Result<Checkpoint>
    requires index < |current.items|
  {
    var item := current.items[index];
    :- RequireStageRequest(current, item);
    var done :- ExecutedItem(item, stage, index == 0, ports);
    AppendSlice(current, current.items[index := done],
                Slice(current.completed, InputStage(stage), Some(item.request.inputId)), NO_RESUME, Advancing, None)
  }

  function AuthorizeResume(current: Checkpoint, ports: Authorities): Result<Checkpoint>
    requires |current.items| == INPUTS
  {
    var first := current.items[0];
    :- Need(first.evidence.Some?, Incomplete);
    :- Need(first.evidence.value.commandId.Some? && first.evidence.value.resultId.Some?, Incomplete);
    :- Need(ports.resume.Some?, Incomplete);
    :- RequireResumeAuthorization(first, ports.resume.value);
    AppendSlice(current, current.items, Slice(current.completed, ResumeAuthorize, None),
                NO_RESUME.(authorization := ports.resume), Advancing, None)
  }

  function DispatchResume(current: Checkpoint, ports: Authorities): Result<Checkpoint>
    requires |current.items| == INPUTS
  {
    var first := current.items[0];
    :- Need(current.resumeAuthorization.Some?, Incomplete);
    :- Need(first.releaseAuthority.Some?, Incomplete);
    :- RequireStageRequest(current, first);
    :- RequireExecution(first, first.releaseAuthority.value, ports.execution, true);
    :- Need(ports.execution.value.executionAuthorityId == current.resumeAuthorization.value.receiptId, Conflict);
    :- RequireFreshIdentity(first, ports.execution.value);
    AppendSlice(current, current.items, Slice(current.completed, ResumeDispatch, None),
                NO_RESUME.(dispatch := ports.execution), Advancing, None)
  }

  function ReadbackResume(current: Checkpoint, ports: Authorities): Result<Checkpoint> {
    var dispatched := current.resumeDispatch;
    :- Need(current.resumeAuthorization.Some? && dispatched.Some?, Incomplete);
    :- Need(ports.execution.Some?, Incomplete);
    :- Need(ports.execution == dispatched, Conflict);
    AppendSlice(current, current.items, Slice(current.completed, ResumeReadback, None),
                NO_RESUME.(readback := ports.execution), ReadyToUse, None)
  }

  /** Run the effect of the next slice and close it. */
  function ExecuteSlice(current: Checkpoint, ports: Authorities): Result<Checkpoint> {
    var ordinal := current.completed;
    if |current.items| != INPUTS then Failure(Malformed)
    else if ordinal < INPUT_SLICES then
      ExecuteInputStage(current, ordinal / STAGES_PER_INPUT, STAGES[ordinal % STAGES_PER_INPUT], ports)
    else if ordinal == INPUT_SLICES then AuthorizeResume(current, ports)
    else if ordinal == INPUT_SLICES + 1 then DispatchResume(current, ports)
    else if ordinal == INPUT_SLICES + 2 then ReadbackResume(current, ports)
    else Failure(Conflict)
  }

  // ---------------------------------------------------------------- reconciliation

  /** The item after one stage, from the authority a reconciliation outcome carries. */
  function ReconciledItem(item: ItemState, stage: Stage, first: bool, found: Authorities): Result<ItemState> {
    var done := item.(completedStages := item.completedStages + [stage]);
    match stage
    case Evaluate =>
      :- RequireFactory(item, found.benchmark, stage);
      :- Need(found.benchmark.Some?, Incomplete);
      ValidatedItem(done.(benchmarkAuthority := found.benchmark))
    case Promote =>
      :- RequireFactory(item, found.factory, stage);
      :- RequireRelease(found.factory, item, first);
      ValidatedItem(done.(releaseAuthority := found.factory))
    case Execute =>
      :- Need(item.releaseAuthority.Some?, Incomplete);
      :- RequireExecution(item, item.releaseAuthority.value, found.execution, false);
      ValidatedItem(done.(executionAuthority := found.execution))
    case Project =>
      :- Need(item.releaseAuthority.Some?, Incomplete);
      :- Need(item.executionAuthority.Some?, Incomplete);
      :- RequireProjection(item.releaseAuthority.value, item.executionAuthority.value, found.projection);
      ValidatedItem(done.(
        projectionAuthority := found.projection,
        evidence := Some(EvidenceOf(
          item, item.releaseAuthority.value, item.executionAuthority.value, found.projection.value))))
    case _ =>
      :- RequireFactory(item, found.factory, stage);
      ValidatedItem(done.(stageAuthority := found.factory))
  }

  /** Close a started slice from a recorded terminal result, without repeating its effect. */
  function CompleteFromReconciliation(current: Checkpoint, outcome: Outcome): Result<Checkpoint> {
    var found := outcome.authorities;
    :- Need(|current.items| == INPUTS, Malformed);
    :- Need(current.started.Some?, Conflict);
    var started := current.started.value;
    if started.inputId.Some? then
      var index := ItemIndex(current.items, started.inputId.value);
      :- Need(index < INPUTS, Conflict);
      var item := current.items[index];
      :- Need(started.kind.InputStage?, Malformed);
      :- RequireStageRequest(current, item);
      var done :- ReconciledItem(item, started.kind.stage, index == 0, found);
      AppendSlice(current, current.items[index := done], started, NO_RESUME, Advancing, Some(outcome))
    else if started.kind == ResumeAuthorize then
      :- Need(found.resume.Some?, Incomplete);
      :- RequireResumeAuthorization(current.items[0], found.resume.value);
      AppendSlice(current, current.items, started, NO_RESUME.(authorization := found.resume), Advancing, Some(outcome))
    else if started.kind == ResumeDispatch then
      :- Need(found.execution.Some? && current.resumeAuthorization.Some?, Incomplete);
      :- Need(current.items[0].releaseAuthority.Some?, Incomplete);
      :- RequireStageRequest(current, current.items[0]);
      :- RequireExecution(current.items[0], current.items[0].releaseAuthority.value, found.execution, true);
      :- Need(found.execution.value.executionAuthorityId == current.resumeAuthorization.value.receiptId, Conflict);
      :- RequireFreshIdentity(current.items[0], found.execution.value);
      AppendSlice(current, current.items, started, NO_RESUME.(dispatch := found.execution), Advancing, Some(outcome))
    else
      :- Need(found.execution.Some? && found.execution == current.resumeDispatch, Conflict);
      AppendSlice(current, current.items, started, NO_RESUME.(readback := found.execution), ReadyToUse, Some(outcome))
  }

  predicate ReceiptConsumed(outcomes: seq<Outcome>, receiptId: Uuid) {
    exists i :: 0 <= i < |outcomes| && outcomes[i].retry.Some? && outcomes[i].retry.value.receiptId == receiptId
  }

  /** Clear a started slice under a fresh no-effect retry receipt. */
  function ClearForRetry(current: Checkpoint, outcome: Outcome): Result<Checkpoint> {
    var receipt := outcome.retry;
    :- Need(receipt.Some?, Conflict);
    :- Need(!ReceiptConsumed(current.outcomes, receipt.value.receiptId), Conflict);
    ValidatedCheckpoint(current.(
      revision := current.revision + 1, started := None, outcomes := current.outcomes + [outcome]))
  }

  function ScopeOf(started: Checkpoint, ref: ArtifactRef): Result<ReconciliationRequest> {
    var active, slice := started.active, started.started;
    :- Need(active.Some? && slice.Some?, Conflict);
    Success(ReconciliationRequest(
      started.assemblyId, active.value.operationId, started.requestSha, slice.value, ref))
  }

  /** What a reconciliation answer does to a started checkpoint whose record is `ref`. */
  function Reconcile(current: Checkpoint, ref: ArtifactRef, answer: Option<Outcome>): Result<Checkpoint> {
    var scope :- ScopeOf(current, ref);
    :- Need(answer.Some?, Incomplete);
    :- Need(answer.value.scope == scope, Conflict);
    if answer.value.disposition == RetryAuthorizedNoEffect then ClearForRetry(current, answer.value)
    else CompleteFromReconciliation(current, answer.value)
  }

  // ---------------------------------------------------------------- advance bookkeeping

  /** The first checkpoint of an admitted assembly. */
  function Admission(request: SubmitRequest, admitted: seq<AdmittedInput>): Result<Checkpoint> {
    var inputs := request.inputs;
    :- Need(|inputs| == INPUTS && |admitted| == INPUTS, Malformed);
    :- Need(forall i :: 0 <= i < INPUTS ==>
              && admitted[i].repositoryPath == inputs[i].repositoryPath
              && admitted[i].input.inputId == inputs[i].inputId, Conflict);
    :- Need(DistinctSources(admitted), Conflict);
    :- Need(admitted[0].input.pattern == Sequential && admitted[1].input.pattern == SelectorGroupChat
            && admitted[2].input.pattern == Swarm, Conflict);
    ValidatedCheckpoint(Checkpoint(
      request.assemblyId, request, OfRequest(request), 1, Admitted, 0,
      seq(INPUTS, i requires 0 <= i < INPUTS =>
        ItemState(inputs[i], admitted[i], [], None, None, None, None, None, None)),
      None, [], None, None, None, None, None, []))
  }

  /** Three pairwise different source references, digests and locations. */
  predicate DistinctSources(admitted: seq<AdmittedInput>)
    requires |admitted| == INPUTS
  {
    forall i, j :: 0 <= i < j < INPUTS ==>
      && admitted[i].input.sourceRef.sha256 != admitted[j].input.sourceRef.sha256
      && admitted[i].input.sourceRef.uri != admitted[j].input.sourceRef.uri
  }

  function RestingStatus(c: Checkpoint): Status {
    if c.completed == TOTAL_SLICES then ReadyToUse else Advancing
  }

  function TargetOf(completed: nat, maximum: nat): nat {
    Min(completed + maximum, TOTAL_SLICES)
  }

  function Claim(current: Checkpoint, request: AdvanceRequest): Result<Checkpoint> {
    ValidatedCheckpoint(current.(
      revision := current.revision + 1,
      status := RestingStatus(current),
      active := Some(ActiveAdvance(request.operationId, request.requestSha, request.maximum, current.completed,
                                   TargetOf(current.completed, request.maximum)))))
  }

  function MarkStarted(current: Checkpoint): Result<Checkpoint> {
    var slice := SliceFor(current.completed, current);
    :- Need(current.started.None?, Incomplete);
    :- Need(current.active.Some?, Conflict);
    :- Need(slice.Some?, Malformed);
    ValidatedCheckpoint(current.(revision := current.revision + 1, started := slice))
  }

  function ReceiptFor(current: Checkpoint, active: ActiveAdvance): AdvanceReceipt
    requires active.start <= current.completed
  {
    AdvanceReceipt(current.assemblyId, active.operationId, active.requestSha, active.maximum, active.start,
                   current.completed, current.completed - active.start, RestingStatus(current))
  }

  function Finish(current: Checkpoint): Result<Checkpoint> {
    var active := current.active;
    :- Need(active.Some? && active.value.start <= current.completed, Conflict);
    ValidatedCheckpoint(current.(
      revision := current.revision + 1,
      status := RestingStatus(current),
      active := None,
      receipts := current.receipts + [ReceiptFor(current, active.value)]))
  }
}
