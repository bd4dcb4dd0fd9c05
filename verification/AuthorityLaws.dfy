/** Laws that every authority the controller stores for an item keeps: identity, suite and cost. */
module AuthorityLaws {
  import opened Wrappers
  import opened AssemblyContracts
  import opened AssemblyTransitions
  import opened HistoryValidation

  /** The authority speaks for this item and stays within its reservation. */
  predicate BoundTo(item: ItemState, a: FactoryAuthority) {
    && a.inputId == item.admitted.input.inputId
    && a.sourceRef == item.admitted.input.sourceRef
    && a.correlationId == item.request.correlationId
    && 0.0 <= a.bookedCost <= item.request.reservation.maximumCost
  }

  /** Same capability and frozen references, and no rewound cost. */
  predicate Continues(a: FactoryAuthority, b: FactoryAuthority) {
    && b.jobId == a.jobId
    && b.correlationId == a.correlationId
    && b.capabilityId == a.capabilityId
    && b.capabilityVersion == a.capabilityVersion
    && b.suiteRef == a.suiteRef
    && b.hermesRef == a.hermesRef
    && a.bookedCost <= b.bookedCost
  }

  /** The execution runs the release and books exactly its cost. */
  predicate Runs(e: ExecutionAuthority, release: FactoryAuthority) {
    && e.jobId == release.jobId
    && e.correlationId == release.correlationId
    && e.capabilityId == release.capabilityId
    && e.capabilityVersion == release.capabilityVersion
    && e.bookedCost == release.bookedCost
    && e.terminalStatus == Succeeded
  }

  predicate Mirrors(p: ProjectionAuthority, release: FactoryAuthority, e: ExecutionAuthority) {
    && p.jobId == release.jobId
    && p.correlationId == release.correlationId
    && p.capabilityId == release.capabilityId
    && p.capabilityVersion == release.capabilityVersion
    && p.commandId == e.commandId
    && p.resultId == e.resultId
  }

  predicate Releases(release: FactoryAuthority, benchmark: FactoryAuthority) {
    && release.benchmarkAuthorityId == benchmark.benchmarkAuthorityId
    && release.benchmarkSummaryRef == benchmark.benchmarkSummaryRef
    && release.normalTraceIds == benchmark.normalTraceIds
    && release.releaseAuthorityId.Some?
  }

  /** Authorities are present exactly from the stage that issues them. */
  predicate PresentByStage(item: ItemState) {
    var count := |item.completedStages|;
    && (item.stageAuthority.Some? <==> count >= 1)
    && (item.benchmarkAuthority.Some? <==> count >= 4)
    && (item.releaseAuthority.Some? <==> count >= 5)
    && (item.executionAuthority.Some? <==> count >= 6)
    && (item.projectionAuthority.Some? <==> count >= 7)
    && (item.evidence.Some? <==> count >= 7)
  }

  /** The Factory stage whose authority an item with this many completed stages holds. */
  function FactoryStage(count: nat): Stage {
    if count <= 1 then Scaffold else if count == 2 then Implement else Seal
  }

  /** All authorities of an item are those of their stages, and agree. */
  predicate ItemLawful(item: ItemState) {
    && item.admitted.input.inputId == item.request.inputId
    && PresentByStage(item)
    && (item.stageAuthority.Some? ==>
          && BoundTo(item, item.stageAuthority.value)
          && item.stageAuthority.value.stage == FactoryStage(|item.completedStages|))
    && (item.benchmarkAuthority.Some? && item.stageAuthority.Some? ==>
          && item.benchmarkAuthority.value.stage == Evaluate && item.benchmarkAuthority.value.business
          && BoundTo(item, item.benchmarkAuthority.value)
          && Continues(item.stageAuthority.value, item.benchmarkAuthority.value))
    && (item.releaseAuthority.Some? && item.benchmarkAuthority.Some? ==>
          && item.releaseAuthority.value.stage == Promote
          && BoundTo(item, item.releaseAuthority.value)
          && Continues(item.benchmarkAuthority.value, item.releaseAuthority.value)
          && Releases(item.releaseAuthority.value, item.benchmarkAuthority.value))
    && (item.executionAuthority.Some? && item.releaseAuthority.Some? ==>
          Runs(item.executionAuthority.value, item.releaseAuthority.value))
    && (item.projectionAuthority.Some? && item.executionAuthority.Some? && item.releaseAuthority.Some? ==>
          && Mirrors(item.projectionAuthority.value, item.releaseAuthority.value, item.executionAuthority.value)
          && item.evidence == Some(EvidenceOf(item, item.releaseAuthority.value, item.executionAuthority.value,
                                              item.projectionAuthority.value)))
  }

  /** The first input's release names its controlled recovery. */
  predicate RecoveryControlled(item: ItemState) {
    item.releaseAuthority.Some? ==> item.releaseAuthority.value.controlledRecoveryId.Some?
  }

  /** What one more stage may not do to an item: rewind its cost or change its frozen references. */
  predicate Advances(before: ItemState, after: ItemState) {
    && LatestCost(before) <= LatestCost(after) <= after.request.reservation.maximumCost
    && (SuiteRef(before).Some? ==> SuiteRef(after) == SuiteRef(before))
    && (HermesRef(before).Some? ==> HermesRef(after) == HermesRef(before))
    && (before.stageAuthority.Some? ==>
          && after.stageAuthority.Some?
          && after.stageAuthority.value.jobId == before.stageAuthority.value.jobId
          && after.stageAuthority.value.capabilityId == before.stageAuthority.value.capabilityId
          && after.stageAuthority.value.capabilityVersion == before.stageAuthority.value.capabilityVersion)
  }

  /** An accepted stage result changes only what the validator allows. */
  lemma ExecutedItemChanges(item: ItemState, stage: Stage, first: bool, ports: Authorities, done: ItemState)
    requires ExecutedItem(item, stage, first, ports) == Success(done)
    ensures done == WithAllowedChanges(item, done, stage)
    ensures done.request == item.request && done.admitted == item.admitted
    ensures first && RecoveryControlled(item) ==> RecoveryControlled(done)
  {
    hide ValidItem, RequireFactory, RequireExecution, RequireProjection, EvidenceOf;
  }

  lemma ExecutedItemAdvances(item: ItemState, stage: Stage, first: bool, ports: Authorities, done: ItemState)
    requires ItemLawful(item)
    requires |item.completedStages| < STAGES_PER_INPUT && stage == STAGES[|item.completedStages|]
    requires ExecutedItem(item, stage, first, ports) == Success(done)
    ensures Advances(item, done)
  {
    hide EvidenceOf, RequireProjection, RequireRelease;
  }

  lemma ExecutedItemIsLawful(item: ItemState, stage: Stage, first: bool, ports: Authorities, done: ItemState)
    requires ItemLawful(item)
    requires |item.completedStages| < STAGES_PER_INPUT && stage == STAGES[|item.completedStages|]
    requires ExecutedItem(item, stage, first, ports) == Success(done)
    ensures ItemLawful(done)
  {
    hide ValidItem;
    if stage == Project {
      EvidenceOfKept(item, done);
    }
  }

  /** Evidence reads the request and the admitted input of its item, and nothing a stage changes. */
  lemma EvidenceOfKept(item: ItemState, done: ItemState)
    requires done.request == item.request && done.admitted == item.admitted
    ensures forall release, execution, projection ::
      EvidenceOf(done, release, execution, projection) == EvidenceOf(item, release, execution, projection)
  {
  }

  /** An accepted stage result keeps the laws and changes only what the validator allows. */
  lemma ExecutedItemKeepsLaws(item: ItemState, stage: Stage, first: bool, ports: Authorities, done: ItemState)
    requires ItemLawful(item)
    requires |item.completedStages| < STAGES_PER_INPUT && stage == STAGES[|item.completedStages|]
    requires ExecutedItem(item, stage, first, ports) == Success(done)
    ensures ItemLawful(done) && Advances(item, done)
    ensures first && RecoveryControlled(item) ==> RecoveryControlled(done)
    ensures done == WithAllowedChanges(item, done, stage)
    ensures done.request == item.request && done.admitted == item.admitted
  {
    hide ItemLawful, ExecutedItem, Advances, WithAllowedChanges, RecoveryControlled;
    ExecutedItemIsLawful(item, stage, first, ports, done);
    ExecutedItemAdvances(item, stage, first, ports, done);
    ExecutedItemChanges(item, stage, first, ports, done);
  }

  /** Reading an authority back yields the item that executing its stage yields, errors included. */
  lemma ReconciledItemIsExecutedItem(item: ItemState, stage: Stage, first: bool, found: Authorities)
    requires found.benchmark.Some? ==> found.benchmark.value.business
    ensures ReconciledItem(item, stage, first, found) == ExecutedItem(item, stage, first, found)
  {
  }

  // ---------------------------------------------------------------- resume authorities

  /** The resumed execution belongs to the first capability, under its own fresh identity. */
  predicate ResumeLawful(c: Checkpoint) {
    && |c.items| == INPUTS
    && (c.resumeAuthorization.Some? ==>
          var item, a := c.items[0], c.resumeAuthorization.value;
          && item.evidence.Some?
          && a.jobId == item.evidence.value.jobId
          && a.correlationId == item.evidence.value.correlationId
          && a.capabilityId == item.evidence.value.capabilityId
          && a.capabilityVersion == item.evidence.value.capabilityVersion
          && a.reservationId == item.request.reservation.reservationId)
    && (c.resumeDispatch.Some? ==>
          var item, e := c.items[0], c.resumeDispatch.value;
          && item.releaseAuthority.Some? && item.evidence.Some? && c.resumeAuthorization.Some?
          && Runs(e, item.releaseAuthority.value)
          && !e.replayed
          && e.executionAuthorityId == c.resumeAuthorization.value.receiptId
          && Some(e.commandId) != item.evidence.value.commandId
          && Some(e.resultId) != item.evidence.value.resultId)
    && (c.resumeReadback.Some? ==> c.resumeReadback == c.resumeDispatch)
  }
}
