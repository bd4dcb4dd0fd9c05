/** Frozen models of gateway/capability_assembly_contracts.py and their validators.
 *
 *  A SHA-256 digest is a free constructor applied to what was hashed: equal digests mean
 *  equal content. Fields that no modelled check reads are carried in an opaque `detail`.
 */
module AssemblyContracts {
  import opened Wrappers

  type Uuid = nat

  const INPUTS: nat := 3
  const STAGES_PER_INPUT: nat := 7
  const INPUT_SLICES: nat := 21
  const TOTAL_SLICES: nat := 24

  datatype Stage = Scaffold | Implement | Seal | Evaluate | Promote | Execute | Project

  const STAGES: seq<Stage> := [Scaffold, Implement, Seal, Evaluate, Promote, Execute, Project]

  datatype SliceKind = InputStage(stage: Stage) | ResumeAuthorize | ResumeDispatch | ResumeReadback

  const RESUME_KINDS: seq<SliceKind> := [ResumeAuthorize, ResumeDispatch, ResumeReadback]

  datatype Status = Admitted | Advancing | ReadyToUse

  datatype Pattern = Sequential | SelectorGroupChat | Swarm

  datatype Digest =
    | Raw(content: nat)
    | OfRequest(request: SubmitRequest)
    | OfCheckpoint(checkpoint: Checkpoint)

  datatype Uri = Location(name: nat) | CheckpointLocation(digest: Digest)

  datatype ArtifactRef = ArtifactRef(uri: Uri, sha256: Digest, json: bool)

  // ---------------------------------------------------------------- submission

  datatype Reservation = Reservation(reservationId: Uuid, runId: Uuid, inputId: string, maximumCost: real)

  datatype InputRequest = InputRequest(
    inputId: string, repositoryPath: string, correlationId: Uuid, reservation: Reservation)

  datatype SubmitRequest = SubmitRequest(
    assemblyId: Uuid, idempotencyKey: nat, maximumCost: real, inputs: seq<InputRequest>)

  predicate ValidInputRequest(i: InputRequest) {
    i.reservation.inputId == i.inputId && i.reservation.maximumCost > 0.0
  }

  predicate ValidSubmit(r: SubmitRequest) {
    && 0.0 < r.maximumCost <= 6.0
    && |r.inputs| == INPUTS
    && (forall i :: 0 <= i < INPUTS ==> ValidInputRequest(r.inputs[i]) && r.inputs[i].reservation.runId == r.assemblyId)
    && (forall i, j :: 0 <= i < j < INPUTS ==> DistinctInputs(r.inputs[i], r.inputs[j]))
    && r.inputs[0].reservation.maximumCost + r.inputs[1].reservation.maximumCost
       + r.inputs[2].reservation.maximumCost == r.maximumCost
  }

  predicate DistinctInputs(a: InputRequest, b: InputRequest) {
    && a.inputId != b.inputId
    && a.repositoryPath != b.repositoryPath
    && a.correlationId != b.correlationId
    && a.reservation.reservationId != b.reservation.reservationId
  }

  datatype CanonicalInput = CanonicalInput(inputId: string, pattern: Pattern, sourceRef: ArtifactRef, detail: nat)

  datatype AdmittedInput = AdmittedInput(repositoryPath: string, input: CanonicalInput)

  // ---------------------------------------------------------------- authorities

  /** A Factory observation; `business` marks the benchmark subclass. */
  datatype FactoryAuthority = FactoryAuthority(
    stage: Stage, inputId: string, sourceRef: ArtifactRef, jobId: Uuid, correlationId: Uuid,
    capabilityId: string, capabilityVersion: nat, suiteRef: ArtifactRef, hermesRef: ArtifactRef,
    bookedCost: real, controlledRecoveryId: Option<Uuid>, normalTraceIds: seq<Uuid>,
    benchmarkAuthorityId: Option<Uuid>, benchmarkSummaryRef: Option<ArtifactRef>,
    releaseAuthorityId: Option<Uuid>, business: bool, detail: nat)

  predicate DistinctTraces(a: FactoryAuthority) {
    |a.normalTraceIds| >= 3
    && forall i, j :: 0 <= i < j < |a.normalTraceIds| ==> a.normalTraceIds[i] != a.normalTraceIds[j]
  }

  predicate ValidFactory(a: FactoryAuthority) {
    && a.bookedCost >= 0.0
    && (a.stage == Promote ==>
          && a.releaseAuthorityId.Some? && a.benchmarkAuthorityId.Some? && a.benchmarkSummaryRef.Some?
          && DistinctTraces(a))
    && (a.business ==>
          a.stage == Evaluate && a.benchmarkAuthorityId.Some? && a.benchmarkSummaryRef.Some? && DistinctTraces(a))
  }

  datatype TerminalStatus = Succeeded | Cancelled | TimedOut | Failed

  datatype ExecutionAuthority = ExecutionAuthority(
    jobId: Uuid, correlationId: Uuid, capabilityId: string, capabilityVersion: nat,
    executionAuthorityId: Uuid, commandId: Uuid, resultId: Uuid, bookedCost: real,
    terminalStatus: TerminalStatus, replayed: bool, resumeActualSpend: Option<real>,
    resumeBudgetViolation: bool, detail: nat)

  datatype ProjectionAuthority = ProjectionAuthority(
    jobId: Uuid, correlationId: Uuid, capabilityId: string, capabilityVersion: nat,
    commandId: Uuid, resultId: Uuid, eventId: Uuid, readbackId: Uuid, detail: nat)

  datatype ResumeAuthorization = ResumeAuthorization(
    jobId: Uuid, reservationId: Uuid, correlationId: Uuid, capabilityId: string,
    capabilityVersion: nat, receiptId: Uuid, detail: nat)

  datatype CapabilityEvidence = CapabilityEvidence(
    inputId: string, pattern: Pattern, jobId: Uuid, correlationId: Uuid, capabilityId: string,
    capabilityVersion: nat, controlledRecoveryId: Option<Uuid>, normalTraceIds: seq<Uuid>,
    releaseAuthorityId: Option<Uuid>, executionAuthorityId: Option<Uuid>, commandId: Option<Uuid>,
    resultId: Option<Uuid>, eventId: Option<Uuid>, readbackId: Option<Uuid>,
    suiteRef: Option<ArtifactRef>, hermesRef: Option<ArtifactRef>, bookedCost: real,
    checkpointRefs: seq<ArtifactRef>)

  /** The five optional authority fields of a reconciliation outcome; also what the ports answer. */
  datatype Authorities = Authorities(
    factory: Option<FactoryAuthority>, benchmark: Option<FactoryAuthority>,
    execution: Option<ExecutionAuthority>, projection: Option<ProjectionAuthority>,
    resume: Option<ResumeAuthorization>)

  const NO_AUTHORITY := Authorities(None, None, None, None, None)

  function Present<T>(o: Option<T>): nat {
    if o.Some? then 1 else 0
  }

  function AuthorityCount(a: Authorities): nat {
    Present(a.factory) + Present(a.benchmark) + Present(a.execution) + Present(a.projection) + Present(a.resume)
  }

  predicate ValidAuthorities(a: Authorities) {
    && (a.factory.Some? ==> ValidFactory(a.factory.value))
    && (a.benchmark.Some? ==> ValidFactory(a.benchmark.value))
    && (a.execution.Some? ==> a.execution.value.bookedCost >= 0.0)
  }

  /** The one authority field a slice kind may fill. */
  predicate FieldPresent(kind: SliceKind, a: Authorities) {
    match kind
    case InputStage(Scaffold) => a.factory.Some?
    case InputStage(Implement) => a.factory.Some?
    case InputStage(Seal) => a.factory.Some?
    case InputStage(Evaluate) => a.benchmark.Some?
    case InputStage(Promote) => a.factory.Some?
    case InputStage(Execute) => a.execution.Some?
    case InputStage(Project) => a.projection.Some?
    case ResumeAuthorize => a.resume.Some?
    case ResumeDispatch => a.execution.Some?
    case ResumeReadback => a.execution.Some?
  }

  // ---------------------------------------------------------------- reconciliation

  datatype Slice = Slice(ordinal: nat, kind: SliceKind, inputId: Option<string>)

  datatype RetryAuthorization = RetryAuthorization(
    assemblyId: Uuid, operationId: Uuid, requestSha: Digest, startedSlice: Slice,
    startedRef: ArtifactRef, receiptId: Uuid, detail: nat)

  datatype Disposition = TerminalReadback | RetryAuthorizedNoEffect

  /** The scope handed to effect adapters, which is also the reconciliation request. */
  datatype ReconciliationRequest = ReconciliationRequest(
    assemblyId: Uuid, operationId: Uuid, requestSha: Digest, startedSlice: Slice, startedRef: ArtifactRef)

  datatype Outcome = Outcome(
    scope: ReconciliationRequest, disposition: Disposition,
    retry: Option<RetryAuthorization>, authorities: Authorities)

  predicate ValidOutcome(o: Outcome) {
    && o.scope.startedSlice.ordinal < TOTAL_SLICES
    && ValidAuthorities(o.authorities)
    && (o.authorities.benchmark.Some? ==> o.authorities.benchmark.value.business)
    && match o.disposition
       case RetryAuthorizedNoEffect =>
         && o.retry.Some?
         && o.authorities == NO_AUTHORITY
         && o.retry.value.assemblyId == o.scope.assemblyId
         && o.retry.value.operationId == o.scope.operationId
         && o.retry.value.requestSha == o.scope.requestSha
         && o.retry.value.startedSlice == o.scope.startedSlice
         && o.retry.value.startedRef == o.scope.startedRef
       case TerminalReadback =>
         && o.retry.None?
         && AuthorityCount(o.authorities) == 1
         && FieldPresent(o.scope.startedSlice.kind, o.authorities)
  }

  // ---------------------------------------------------------------- progress

  datatype ItemState = ItemState(
    request: InputRequest, admitted: AdmittedInput, completedStages: seq<Stage>,
    stageAuthority: Option<FactoryAuthority>, benchmarkAuthority: Option<FactoryAuthority>,
    releaseAuthority: Option<FactoryAuthority>, executionAuthority: Option<ExecutionAuthority>,
    projectionAuthority: Option<ProjectionAuthority>, evidence: Option<CapabilityEvidence>)

  predicate ValidItem(item: ItemState) {
    && (item.stageAuthority.Some? ==> ValidFactory(item.stageAuthority.value))
    && (item.benchmarkAuthority.Some? ==>
          ValidFactory(item.benchmarkAuthority.value) && item.benchmarkAuthority.value.business)
    && (item.releaseAuthority.Some? ==> ValidFactory(item.releaseAuthority.value))
    && (item.executionAuthority.Some? ==> item.executionAuthority.value.bookedCost >= 0.0)
    && var count := |item.completedStages|;
    && count <= STAGES_PER_INPUT
    && item.completedStages == STAGES[..count]
    && (count >= 1 ==> item.stageAuthority.Some?)
    && (count >= 4 ==> item.benchmarkAuthority.Some?)
    && (count >= 5 ==> item.releaseAuthority.Some?)
    && (count >= 6 ==> item.executionAuthority.Some?)
    && (count >= 7 ==> item.projectionAuthority.Some? && item.evidence.Some?)
  }

  datatype ActiveAdvance = ActiveAdvance(
    operationId: Uuid, requestSha: Digest, maximum: nat, start: nat, target: nat)

  predicate ValidActive(a: ActiveAdvance) {
    1 <= a.maximum <= 8 && a.start <= a.target <= a.start + a.maximum && a.target <= TOTAL_SLICES
  }

  datatype AdvanceReceipt = AdvanceReceipt(
    assemblyId: Uuid, operationId: Uuid, requestSha: Digest, maximum: nat,
    start: nat, end: nat, executed: nat, status: Status)

  predicate ValidReceipt(r: AdvanceReceipt) {
    1 <= r.maximum <= 8 && r.end <= TOTAL_SLICES && r.start <= TOTAL_SLICES
    && r.end - r.start == r.executed && r.executed <= r.maximum
  }

  datatype AdvanceRequest = AdvanceRequest(
    assemblyId: Uuid, operationId: Uuid, requestSha: Digest, maximum: nat)

  predicate ValidAdvanceRequest(r: AdvanceRequest) {
    1 <= r.maximum <= 8
  }

  datatype Checkpoint = Checkpoint(
    assemblyId: Uuid, request: SubmitRequest, requestSha: Digest, revision: nat, status: Status,
    completed: nat, items: seq<ItemState>, active: Option<ActiveAdvance>,
    receipts: seq<AdvanceReceipt>, resumeAuthorization: Option<ResumeAuthorization>,
    resumeDispatch: Option<ExecutionAuthority>, resumeReadback: Option<ExecutionAuthority>,
    last: Option<Slice>, started: Option<Slice>, outcomes: seq<Outcome>)

  function ResumeCount(c: Checkpoint): nat {
    if c.resumeReadback.Some? then 3
    else if c.resumeDispatch.Some? then 2
    else if c.resumeAuthorization.Some? then 1
    else 0
  }

  function StageSlices(c: Checkpoint): nat
    requires |c.items| == INPUTS
  {
    |c.items[0].completedStages| + |c.items[1].completedStages| + |c.items[2].completedStages|
  }

  /** Each resume authority presupposes the one before it. */
  predicate ResumeOrdered(c: Checkpoint) {
    (c.resumeDispatch.Some? ==> c.resumeAuthorization.Some?) && (c.resumeReadback.Some? ==> c.resumeDispatch.Some?)
  }

  predicate DistinctReceipts(receipts: seq<AdvanceReceipt>) {
    forall i, j :: 0 <= i < j < |receipts| ==> receipts[i].operationId != receipts[j].operationId
  }

  /** Two outcomes of one checkpoint clash when they repeat a key or a consumed retry receipt. */
  predicate OutcomesClash(a: Outcome, b: Outcome) {
    || (a.scope.operationId == b.scope.operationId && a.scope.startedRef.sha256 == b.scope.startedRef.sha256
        && a.disposition == b.disposition)
    || (a.retry.Some? && b.retry.Some? && a.retry.value.receiptId == b.retry.value.receiptId)
  }

  predicate DistinctOutcomes(outcomes: seq<Outcome>) {
    forall i, j :: 0 <= i < j < |outcomes| ==> !OutcomesClash(outcomes[i], outcomes[j])
  }

  /** Every nested model satisfies its own contract. */
  predicate ValidParts(c: Checkpoint) {
    && ValidSubmit(c.request)
    && |c.items| == INPUTS
    && (forall i :: 0 <= i < INPUTS ==> ValidItem(c.items[i]))
    && (c.active.Some? ==> ValidActive(c.active.value))
    && (forall i :: 0 <= i < |c.receipts| ==> ValidReceipt(c.receipts[i]))
    && (c.last.Some? ==> c.last.value.ordinal < TOTAL_SLICES)
    && (c.started.Some? ==> c.started.value.ordinal < TOTAL_SLICES)
    && (c.resumeDispatch.Some? ==> c.resumeDispatch.value.bookedCost >= 0.0)
    && (c.resumeReadback.Some? ==> c.resumeReadback.value.bookedCost >= 0.0)
    && (forall i :: 0 <= i < |c.outcomes| ==> ValidOutcome(c.outcomes[i]))
  }

  /** The checkpoint's own cross-field validator. */
  predicate ValidBinding(c: Checkpoint) {
    && |c.items| == INPUTS && |c.request.inputs| == INPUTS
    && c.revision >= 1
    && c.completed <= TOTAL_SLICES
    && c.request.assemblyId == c.assemblyId
    && (forall i :: 0 <= i < INPUTS ==> c.items[i].request == c.request.inputs[i])
    && ResumeOrdered(c)
    && StageSlices(c) + ResumeCount(c) == c.completed
    && (c.active.Some? ==> c.active.value.start <= c.completed <= c.active.value.target)
    && (c.started.Some? ==>
          c.active.Some? && c.completed < c.active.value.target && c.started.value.ordinal == c.completed)
    && DistinctReceipts(c.receipts)
    && (forall i :: 0 <= i < |c.receipts| ==>
          c.receipts[i].assemblyId == c.assemblyId && c.receipts[i].requestSha == c.requestSha)
    && (forall i :: 0 <= i < |c.outcomes| ==>
          c.outcomes[i].scope.assemblyId == c.assemblyId && c.outcomes[i].scope.requestSha == c.requestSha)
    && DistinctOutcomes(c.outcomes)
    && (c.status == ReadyToUse <==> c.completed == TOTAL_SLICES)
    && (c.status == ReadyToUse ==> c.resumeReadback.Some?)
  }

  predicate ValidCheckpoint(c: Checkpoint) {
    ValidParts(c) && ValidBinding(c)
  }

  // ---------------------------------------------------------------- records

  datatype Record = Record(checkpoint: Checkpoint, ref: ArtifactRef)

  function CheckpointRef(c: Checkpoint): ArtifactRef {
    ArtifactRef(CheckpointLocation(OfCheckpoint(c)), OfCheckpoint(c), true)
  }

  function RecordOf(c: Checkpoint): Record {
    Record(c, CheckpointRef(c))
  }
}
