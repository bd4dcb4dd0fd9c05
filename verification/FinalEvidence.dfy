/** `final_evidence`: what a finished assembly reports, up to the external evidence validator. */
module FinalEvidence {
  import opened Wrappers
  import opened AssemblyContracts
  import opened AssemblyTransitions
  import opened HistoryValidation
  import opened HistoryLaws
  import opened AuthorityLaws
  import opened ControllerRuns
  import opened ProtocolSafety

  datatype RestartEvidence = RestartEvidence(
    runId: Uuid, jobId: Uuid, reservationId: Uuid, correlationId: Uuid, capabilityId: string, capabilityVersion: nat,
    originalCommandId: Option<Uuid>, originalResultId: Option<Uuid>, resumedAuthorityId: Uuid, resumedCommandId: Uuid,
    resumedResultId: Uuid, eventId: Option<Uuid>, readbackId: Option<Uuid>, resumeActualSpend: real,
    totalBookedCost: real, resumeBudgetViolation: bool)

  datatype Evidence = Evidence(
    runId: Uuid, maximumCost: real, bookedCost: real, reservations: seq<Reservation>,
    capabilities: seq<CapabilityEvidence>, restart: RestartEvidence)

  // ---------------------------------------------------------------- collecting records

  predicate Names(record: Record, inputId: string) {
    record.checkpoint.last.Some? && record.checkpoint.last.value.inputId == Some(inputId)
  }

  /** References of the records whose last slice names this input, in revision order. */
  function RefsOf(h: seq<Record>, inputId: string): seq<ArtifactRef> {
    if h == [] then []
    else RefsOf(h[..|h| - 1], inputId) + if Names(h[|h| - 1], inputId) then [h[|h| - 1].ref] else []
  }

  function RefsIn(h: seq<Record>): seq<ArtifactRef> {
    seq(|h|, i requires 0 <= i < |h| => h[i].ref)
  }

  /** How many records come before slice number `n` is completed. */
  function Before(h: seq<Record>, n: nat): (count: nat)
    ensures count <= |h|
  {
    if h == [] then 0
    else Before(h[..|h| - 1], n) + if h[|h| - 1].checkpoint.completed < n then 1 else 0
  }

  predicate Progressive(h: seq<Record>) {
    (forall i, j :: 0 <= i <= j < |h| ==> h[i].checkpoint.completed <= h[j].checkpoint.completed)
  }

  lemma HasRecords(a: Uuid, h: seq<Record>)
    requires AcceptedHistory(a, h)
    ensures |h| > 0
  {
    hide AcceptedAt, Decoded, FirstAccepted;
  }

  lemma ProgressStep(prior: Record, current: Record)
    requires TransitionAccepted(prior, current)
    ensures prior.checkpoint.completed <= current.checkpoint.completed <= prior.checkpoint.completed + 1
  {
    hide RestingAccepted, CompletionAccepted;
  }

  lemma {:induction false} ProgressIsMonotone(a: Uuid, h: seq<Record>, i: nat, j: nat)
    requires AcceptedHistory(a, h) && i <= j < |h|
    ensures h[i].checkpoint.completed <= h[j].checkpoint.completed
    decreases j
  {
    hide AcceptedHistory, TransitionAccepted, ValidCheckpoint, RecordAccepted, FirstAccepted;
    if i < j {
      AcceptedStep(a, h, j);
      ProgressStep(h[j - 1], h[j]);
      ProgressIsMonotone(a, h, i, j - 1);
    }
  }

  lemma AcceptedIsProgressive(a: Uuid, h: seq<Record>)
    requires AcceptedHistory(a, h)
    ensures Progressive(h)
  {
    hide AcceptedHistory;
    forall i, j | 0 <= i <= j < |h|
      ensures h[i].checkpoint.completed <= h[j].checkpoint.completed
    {
      ProgressIsMonotone(a, h, i, j);
    }
  }

  /** Progress splits a history at `Before`. */
  lemma {:induction false} BeforeSplits(h: seq<Record>, n: nat, i: nat)
    requires Progressive(h) && i < |h|
    ensures i < Before(h, n) <==> h[i].checkpoint.completed < n
  {
    var last := |h| - 1;
    if i < last {
      BeforeSplits(h[..last], n, i);
    }
    if last > 0 {
      BeforeSplits(h[..last], n, last - 1);
      AllBefore(h[..last], n);
    }
  }

  lemma {:induction false} AllBefore(h: seq<Record>, n: nat)
    requires Progressive(h) && h != []
    ensures h[|h| - 1].checkpoint.completed < n ==> Before(h, n) == |h|
  {
    var last := |h| - 1;
    if last > 0 {
      AllBefore(h[..last], n);
    }
  }

  lemma {:induction false} RefsOfConcat(h: seq<Record>, k: seq<Record>, inputId: string)
    ensures RefsOf(h + k, inputId) == RefsOf(h, inputId) + RefsOf(k, inputId)
  {
    if k == [] {
      assert h + k == h;
    } else {
      assert (h + k)[..|h + k| - 1] == h + k[..|k| - 1];
      RefsOfConcat(h, k[..|k| - 1], inputId);
    }
  }

  lemma {:induction false} AllNamed(h: seq<Record>, inputId: string)
    requires forall i :: 0 <= i < |h| ==> Names(h[i], inputId)
    ensures RefsOf(h, inputId) == RefsIn(h)
  {
    if h != [] {
      AllNamed(h[..|h| - 1], inputId);
    }
  }

  lemma {:induction false} NoneNamed(h: seq<Record>, inputId: string)
    requires forall i :: 0 <= i < |h| ==> !Names(h[i], inputId)
    ensures RefsOf(h, inputId) == []
  {
    if h != [] {
      NoneNamed(h[..|h| - 1], inputId);
    }
  }

  /** Which records name input `index`: those from its first completed slice to its last. */
  lemma NamedByProgress(a: Uuid, h: seq<Record>, index: nat, i: nat)
    requires AcceptedHistory(a, h) && index < INPUTS && i < |h|
    ensures |h[0].checkpoint.request.inputs| == INPUTS
    ensures Names(h[i], h[0].checkpoint.request.inputs[index].inputId)
      <==> STAGES_PER_INPUT * index < h[i].checkpoint.completed <= STAGES_PER_INPUT * (index + 1)
  {
    hide TransitionAccepted, ValidParts, AcceptedHistory, FirstAccepted;
    AcceptedStep(a, h, i);
    AcceptedStep(a, h, 0);
    InputsDiffer(h[0].checkpoint);
  }

  lemma InputsDiffer(c: Checkpoint)
    requires ValidCheckpoint(c)
    ensures |c.request.inputs| == INPUTS
    ensures forall i, j | 0 <= i < INPUTS && 0 <= j < INPUTS ::
      c.request.inputs[i].inputId == c.request.inputs[j].inputId ==> i == j
  {
    hide ValidBinding, ValidItem, ValidOutcome;
    assert forall i, j :: 0 <= i < j < INPUTS ==> DistinctInputs(c.request.inputs[i], c.request.inputs[j]);
  }

  /** When exactly one stretch of records names an input, its references are collected in order. */
  lemma StretchRefs(h: seq<Record>, inputId: string, lo: nat, hi: nat)
    requires lo <= hi <= |h|
    requires forall i :: 0 <= i < |h| ==> (Names(h[i], inputId) <==> lo <= i < hi)
    ensures RefsOf(h, inputId) == RefsIn(h[lo..hi])
  {
    hide Names, RefsOf;
    NoneNamed(h[..lo], inputId);
    AllNamed(h[lo..hi], inputId);
    NoneNamed(h[hi..], inputId);
    RefsOfConcat(h[..lo], h[lo..hi], inputId);
    RefsOfConcat(h[..hi], h[hi..], inputId);
    assert h[..lo] + h[lo..hi] == h[..hi] && h[..hi] + h[hi..] == h;
  }

  /** Where the records of one input begin, and where the next one's do. */
  function Start(h: seq<Record>, index: nat): nat {
    Before(h, STAGES_PER_INPUT * index + 1)
  }

  /** The references collected for one capability are those of one contiguous stretch of records, and
   *  the next capability's stretch begins where it ends. */
  lemma {:induction false} CapabilityStretch(a: Uuid, h: seq<Record>, index: nat)
    requires AcceptedHistory(a, h) && index < INPUTS
    ensures |h[0].checkpoint.request.inputs| == INPUTS && Start(h, index) <= Start(h, index + 1)
    ensures RefsOf(h, h[0].checkpoint.request.inputs[index].inputId) == RefsIn(h[Start(h, index)..Start(h, index + 1)])
  {
    hide AcceptedHistory, ValidCheckpoint, RecordAccepted, TransitionAccepted, FirstAccepted, Names, Before,
      Progressive, RefsOf, RefsIn;
    HasRecords(a, h);
    AcceptedStep(a, h, 0);
    InputsDiffer(h[0].checkpoint);
    var id := h[0].checkpoint.request.inputs[index].inputId;
    AcceptedIsProgressive(a, h);
    forall i | 0 <= i < |h|
      ensures Names(h[i], id) <==> Start(h, index) <= i < Start(h, index + 1)
    {
      NamedByProgress(a, h, index, i);
      BeforeSplits(h, STAGES_PER_INPUT * index + 1, i);
      BeforeSplits(h, STAGES_PER_INPUT * (index + 1) + 1, i);
    }
    BeforeIsMonotone(h, STAGES_PER_INPUT * index + 1, STAGES_PER_INPUT * (index + 1) + 1);
    StretchRefs(h, id, Start(h, index), Start(h, index + 1));
  }

  lemma {:induction false} BeforeIsMonotone(h: seq<Record>, n: nat, m: nat)
    requires n <= m
    ensures Before(h, n) <= Before(h, m)
  {
    if h != [] {
      BeforeIsMonotone(h[..|h| - 1], n, m);
    }
  }

  // ---------------------------------------------------------------- the report

  /** One capability's evidence with the references of its own records. */
  function Collected(h: seq<Record>, item: ItemState): Result<CapabilityEvidence> {
    var refs := RefsOf(h, item.request.inputId);
    :- Need(item.evidence.Some? && refs != [], Incomplete);
    Success(item.evidence.value.(checkpointRefs := refs))
  }

  function CollectedAll(h: seq<Record>, items: seq<ItemState>): Result<seq<CapabilityEvidence>> {
    if items == [] then Success([])
    else
      var rest :- CollectedAll(h, items[..|items| - 1]);
      var last :- Collected(h, items[|items| - 1]);
      Success(rest + [last])
  }

  function Booked(capabilities: seq<CapabilityEvidence>): real {
    if capabilities == [] then 0.0
    else Booked(capabilities[..|capabilities| - 1]) + capabilities[|capabilities| - 1].bookedCost
  }

  /** The report of a finished checkpoint with its collected capabilities and their summed cost. */
  function Assembled(current: Checkpoint, capabilities: seq<CapabilityEvidence>, booked: real): Evidence
    requires |current.items| == INPUTS && |capabilities| == INPUTS && current.resumeReadback.Some?
  {
    var items, first, resumed := current.items, capabilities[0], current.resumeReadback.value;
    Evidence(
      current.assemblyId, current.request.maximumCost, booked,
      [items[0].request.reservation, items[1].request.reservation, items[2].request.reservation],
      capabilities,
      RestartEvidence(
        current.assemblyId, first.jobId, items[0].request.reservation.reservationId, first.correlationId,
        first.capabilityId, first.capabilityVersion, first.commandId, first.resultId, resumed.executionAuthorityId,
        resumed.commandId, resumed.resultId, first.eventId, first.readbackId,
        if resumed.resumeActualSpend.Some? then resumed.resumeActualSpend.value else 0.0,
        resumed.bookedCost, resumed.resumeBudgetViolation))
  }

  function Report(h: seq<Record>): Result<Evidence>
    requires h != [] && |h[|h| - 1].checkpoint.items| == INPUTS
  {
    var current := h[|h| - 1].checkpoint;
    var items, dispatch, readback := current.items, current.resumeDispatch, current.resumeReadback;
    :- Need(current.status == ReadyToUse && dispatch.Some? && readback.Some?, Incomplete);
    :- Need(dispatch == readback, Conflict);
    var capabilities :- CollectedAll(h, items);
    :- Need(|capabilities| == INPUTS, Incomplete);
    Success(Assembled(current, capabilities, Booked(capabilities)))
  }

  method CollectRefs(h: seq<Record>, inputId: string) returns (refs: seq<ArtifactRef>)
    ensures refs == RefsOf(h, inputId)
  {
    refs := [];
    for i := 0 to |h|
      invariant refs == RefsOf(h[..i], inputId)
    {
      assert h[..i + 1][..i] == h[..i];
      if Names(h[i], inputId) {
        refs := refs + [h[i].ref];
      }
    }
    assert h[..|h|] == h;
  }

  /** One more item of the loop. */
  lemma OneMoreCollected(h: seq<Record>, items: seq<ItemState>, i: nat, capabilities: seq<CapabilityEvidence>)
    requires i < |items| && |capabilities| == i && CollectedAll(h, items[..i]) == Success(capabilities)
    requires Collected(h, items[i]).Success?
    ensures var more := capabilities + [Collected(h, items[i]).value];
      CollectedAll(h, items[..i + 1]) == Success(more)
      && Booked(more) == Booked(capabilities) + items[i].evidence.value.bookedCost
  {
    hide RefsOf;
    var more := capabilities + [Collected(h, items[i]).value];
    assert items[..i + 1][..i] == items[..i] && more[..i] == capabilities;
  }

  lemma NothingCollected(h: seq<Record>)
    ensures CollectedAll(h, []) == Success([]) && Booked([]) == 0.0
  {
  }

  /** The controller's loop over the items of the latest checkpoint. */
  method FinalEvidence(h: seq<Record>) returns (result: Result<Evidence>)
    requires h != [] && |h[|h| - 1].checkpoint.items| == INPUTS
    ensures result == Report(h)
  {
    hide RefsOf, CollectedAll, Booked;
    var current := h[|h| - 1].checkpoint;
    var items := current.items;
    if current.status != ReadyToUse || current.resumeDispatch.None? || current.resumeReadback.None? {
      return Failure(Incomplete);
    }
    if current.resumeDispatch != current.resumeReadback {
      return Failure(Conflict);
    }
    var capabilities: seq<CapabilityEvidence> := [];
    var booked := 0.0;
    NothingCollected(h);
    assert items[..0] == [] && items[..INPUTS] == items;
    for i := 0 to INPUTS
      invariant |capabilities| == i && CollectedAll(h, items[..i]) == Success(capabilities)
      invariant booked == Booked(capabilities)
    {
      var refs := CollectRefs(h, items[i].request.inputId);
      if items[i].evidence.None? || refs == [] {
        CollectionFails(h, items, i);
        return Failure(Incomplete);
      }
      OneMoreCollected(h, items, i, capabilities);
      capabilities := capabilities + [items[i].evidence.value.(checkpointRefs := refs)];
      booked := booked + items[i].evidence.value.bookedCost;
    }
    return Success(Assembled(current, capabilities, booked));
  }

  lemma {:induction false} CollectionFails(h: seq<Record>, items: seq<ItemState>, i: nat)
    requires i < |items| && Collected(h, items[i]).Failure?
    ensures CollectedAll(h, items) == Failure(Incomplete)
    decreases |items|
  {
    var n := |items| - 1;
    if i < n {
      CollectionFails(h, items[..n], i);
    } else {
      OnlyIncomplete(h, items[..n]);
    }
  }

  lemma {:induction false} OnlyIncomplete(h: seq<Record>, items: seq<ItemState>)
    ensures CollectedAll(h, items).Failure? ==> CollectedAll(h, items) == Failure(Incomplete)
    ensures CollectedAll(h, items).Success? ==> |CollectedAll(h, items).value| == |items|
  {
    if items != [] {
      OnlyIncomplete(h, items[..|items| - 1]);
    }
  }

  // ---------------------------------------------------------------- what a report says

  /** Every started capability has records of its own. */
  lemma StretchNonEmpty(a: Uuid, h: seq<Record>, index: nat)
    requires AcceptedHistory(a, h) && index < INPUTS
    requires h[|h| - 1].checkpoint.completed > STAGES_PER_INPUT * index
    ensures Start(h, index) < Start(h, index + 1)
  {
    hide AcceptedHistory, ValidCheckpoint, RecordAccepted, TransitionAccepted, Before, Progressive;
    HasRecords(a, h);
    var n := STAGES_PER_INPUT * index + 1;
    var lo := Start(h, index);
    AcceptedIsProgressive(a, h);
    BeforeSplits(h, n, |h| - 1);
    BeforeSplits(h, n, lo);
    AcceptedStep(a, h, 0);
    AcceptedStep(a, h, lo);
    if lo > 0 {
      BeforeSplits(h, n, lo - 1);
      ProgressStep(h[lo - 1], h[lo]);
    }
    BeforeSplits(h, n + STAGES_PER_INPUT, lo);
  }

  /** The stretches of the three capabilities together are the records from the first input slice up
   *  to the first resume slice. */
  lemma StretchesCoverInputSlices(a: Uuid, h: seq<Record>)
    requires AcceptedHistory(a, h)
    ensures Start(h, 0) <= Start(h, 1) <= Start(h, 2) <= Start(h, 3)
    ensures forall i :: 0 <= i < |h| ==>
      (Start(h, 0) <= i < Start(h, 3) <==> 1 <= h[i].checkpoint.completed <= INPUT_SLICES)
  {
    hide AcceptedHistory, Before, Progressive;
    AcceptedIsProgressive(a, h);
    BeforeIsMonotone(h, 1, 8);
    BeforeIsMonotone(h, 8, 15);
    BeforeIsMonotone(h, 15, 22);
    forall i | 0 <= i < |h|
      ensures Start(h, 0) <= i < Start(h, 3) <==> 1 <= h[i].checkpoint.completed <= INPUT_SLICES
    {
      BeforeSplits(h, 1, i);
      BeforeSplits(h, 22, i);
    }
  }

  /** No two records share a reference, so no two capabilities do. */
  lemma ReferencesDiffer(a: Uuid, h: seq<Record>, i: nat, j: nat)
    requires AcceptedHistory(a, h) && i < j < |h|
    ensures h[i].ref.sha256 != h[j].ref.sha256
  {
    hide AcceptedHistory, ValidCheckpoint, ShapeAccepted, TransitionAccepted, FirstAccepted;
    AcceptedStep(a, h, i);
    AcceptedStep(a, h, j);
  }

  /** What a finished lawful checkpoint holds. */
  lemma FinishedCheckpoint(c: Checkpoint)
    requires Lawful(c)
    ensures c.status == ReadyToUse <==> c.completed == TOTAL_SLICES
    ensures c.completed == TOTAL_SLICES ==>
      && c.resumeDispatch.Some? && c.resumeReadback == c.resumeDispatch
      && forall i :: 0 <= i < INPUTS ==> c.items[i].evidence.Some?
  {
    hide ValidParts, ShapeAccepted, Tiled, OutcomesPrecede, ItemLawful, DistinctOutcomes, DistinctReceipts;
    if c.completed == TOTAL_SLICES {
      forall i | 0 <= i < INPUTS
        ensures c.items[i].evidence.Some?
      {
        assert |c.items[i].completedStages| == STAGES_PER_INPUT && ItemLawful(c.items[i]);
        EvidenceAtLast(c.items[i]);
      }
    }
  }

  /** A finished item's evidence names its own release, execution and projection, and books the release
   *  cost within the reservation. */
  lemma EvidenceAtLast(item: ItemState)
    requires ItemLawful(item) && |item.completedStages| == STAGES_PER_INPUT
    ensures item.evidence.Some? && item.benchmarkAuthority.Some? && item.releaseAuthority.Some?
    ensures item.executionAuthority.Some? && item.projectionAuthority.Some?
    ensures var e, release := item.evidence.value, item.releaseAuthority.value;
      && 0.0 <= e.bookedCost == release.bookedCost <= item.request.reservation.maximumCost
      && e.jobId == release.jobId && e.correlationId == release.correlationId
      && e.capabilityId == release.capabilityId && e.capabilityVersion == release.capabilityVersion
      && e.inputId == item.request.inputId && e.pattern == item.admitted.input.pattern
      && e.suiteRef == SuiteRef(item) && e.hermesRef == HermesRef(item)
      && e.normalTraceIds == item.benchmarkAuthority.value.normalTraceIds
      && e.releaseAuthorityId == release.releaseAuthorityId && e.releaseAuthorityId.Some?
      && e.controlledRecoveryId == release.controlledRecoveryId
      && e.executionAuthorityId == Some(item.executionAuthority.value.executionAuthorityId)
      && e.bookedCost == item.executionAuthority.value.bookedCost
      && e.commandId == Some(item.executionAuthority.value.commandId) == Some(item.projectionAuthority.value.commandId)
      && e.resultId == Some(item.executionAuthority.value.resultId) == Some(item.projectionAuthority.value.resultId)
      && e.eventId == Some(item.projectionAuthority.value.eventId)
      && e.readbackId == Some(item.projectionAuthority.value.readbackId)
  {
  }

  lemma FinishedItem(c: Checkpoint, i: nat)
    requires Lawful(c) && c.completed == TOTAL_SLICES && i < INPUTS
    ensures ItemLawful(c.items[i]) && |c.items[i].completedStages| == STAGES_PER_INPUT
  {
    hide ValidCheckpoint, ShapeAccepted, Tiled, OutcomesPrecede, ItemLawful, ResumeLawful;
  }

  /** Costs of a finished lawful checkpoint stay within its ceiling, which is at most 6. */
  lemma CostsWithinCeiling(c: Checkpoint)
    requires Lawful(c) && c.completed == TOTAL_SLICES
    ensures forall i :: 0 <= i < INPUTS ==> c.items[i].evidence.Some?
    ensures 0.0 <= c.items[0].evidence.value.bookedCost + c.items[1].evidence.value.bookedCost
                   + c.items[2].evidence.value.bookedCost <= c.request.maximumCost <= 6.0
  {
    hide ItemLawful, ShapeAccepted, Lexicographic, Tiled, OutcomesPrecede, ResumeLawful, DistinctReceipts,
      DistinctOutcomes, ValidItem, ValidOutcome, ValidReceipt, DistinctInputs;
    forall i | 0 <= i < INPUTS
      ensures c.items[i].evidence.Some?
      ensures 0.0 <= c.items[i].evidence.value.bookedCost <= c.items[i].request.reservation.maximumCost
    {
      FinishedItem(c, i);
      EvidenceAtLast(c.items[i]);
    }
  }

  /** The resumed execution belongs to the first capability, books its cost and is a new one. */
  lemma ResumeOfFinished(c: Checkpoint)
    requires Lawful(c) && c.completed == TOTAL_SLICES
    ensures c.resumeDispatch.Some? && c.items[0].evidence.Some?
    ensures var resumed, first := c.resumeDispatch.value, c.items[0].evidence.value;
      && resumed.bookedCost == first.bookedCost
      && resumed.jobId == first.jobId && resumed.correlationId == first.correlationId
      && resumed.capabilityId == first.capabilityId && resumed.capabilityVersion == first.capabilityVersion
      && Some(resumed.commandId) != first.commandId
      && Some(resumed.resultId) != first.resultId
      && !resumed.replayed
      && c.resumeAuthorization.Some? && resumed.executionAuthorityId == c.resumeAuthorization.value.receiptId
  {
    hide ItemLawful, ShapeAccepted, ValidCheckpoint, Lexicographic, Tiled, OutcomesPrecede;
    FinishedCheckpoint(c);
    FinishedItem(c, 0);
    EvidenceAtLast(c.items[0]);
  }

  /** A stretch of records as one capability's evidence reports it. */
  predicate Reports(h: seq<Record>, item: ItemState, index: nat, e: CapabilityEvidence) {
    && Start(h, index) < Start(h, index + 1)
    && item.evidence.Some?
    && e == item.evidence.value.(checkpointRefs := RefsIn(h[Start(h, index)..Start(h, index + 1)]))
  }

  lemma LastIsLawful(a: Uuid, h: seq<Record>)
    requires Chronicle(a, h)
    ensures |h| > 0 && AcceptedHistory(a, h) && Lawful(h[|h| - 1].checkpoint)
  {
    hide Lawful, AcceptedAt, Decoded, FirstAccepted, CleanStart;
  }

  lemma CollectedReports(a: Uuid, h: seq<Record>, index: nat)
    requires Chronicle(a, h) && index < INPUTS
    requires h[|h| - 1].checkpoint.completed == TOTAL_SLICES && |h[|h| - 1].checkpoint.items| == INPUTS
    ensures var item := h[|h| - 1].checkpoint.items[index];
      Collected(h, item).Success? && Reports(h, item, index, Collected(h, item).value)
  {
    hide Chronicle, Lawful, AcceptedHistory, ItemLawful, RefsOf, Before;
    LastIsLawful(a, h);
    FinishedCheckpoint(h[|h| - 1].checkpoint);
    SameInputs(a, h);
    CapabilityStretch(a, h, index);
    StretchNonEmpty(a, h, index);
    assert |RefsIn(h[Start(h, index)..Start(h, index + 1)])| > 0;
  }

  lemma SameRequest(a: Uuid, h: seq<Record>, i: nat)
    requires AcceptedHistory(a, h) && i < |h|
    ensures h[i].checkpoint.request == h[0].checkpoint.request && ValidCheckpoint(h[i].checkpoint)
  {
    hide ValidCheckpoint, AcceptedHistory, TransitionAccepted, FirstAccepted, ShapeAccepted, DigestAccepted;
    AcceptedStep(a, h, i);
  }

  lemma ItemsOfRequest(c: Checkpoint)
    requires ValidCheckpoint(c)
    ensures |c.items| == INPUTS && |c.request.inputs| == INPUTS
    ensures forall i :: 0 <= i < INPUTS ==> c.items[i].request == c.request.inputs[i]
  {
    hide ValidParts;
  }

  lemma SameInputs(a: Uuid, h: seq<Record>)
    requires AcceptedHistory(a, h)
    ensures |h[0].checkpoint.request.inputs| == INPUTS && |h[|h| - 1].checkpoint.items| == INPUTS
    ensures forall i :: 0 <= i < INPUTS ==>
      h[|h| - 1].checkpoint.items[i].request.inputId == h[0].checkpoint.request.inputs[i].inputId
  {
    hide AcceptedHistory, ValidCheckpoint;
    HasRecords(a, h);
    SameRequest(a, h, |h| - 1);
    ItemsOfRequest(h[|h| - 1].checkpoint);
  }

  /** A written history is reported exactly when all 24 slices are done; otherwise it is incomplete, and
   *  the resume-mismatch conflict never arises. */
  lemma FinishedIffReported(a: Uuid, h: seq<Record>)
    requires Chronicle(a, h)
    ensures |h[|h| - 1].checkpoint.items| == INPUTS
    ensures Report(h).Success? <==> h[|h| - 1].checkpoint.completed == TOTAL_SLICES
    ensures Report(h).Failure? ==> Report(h) == Failure(Incomplete)
    ensures Report(h).Success? ==>
      var items := h[|h| - 1].checkpoint.items;
      && |Report(h).value.capabilities| == INPUTS
      && forall i :: 0 <= i < INPUTS ==> Reports(h, items[i], i, Report(h).value.capabilities[i])
  {
    hide Chronicle, Lawful, AcceptedHistory, ItemLawful, Collected, Reports, CollectedAll;
    LastIsLawful(a, h);
    var c := h[|h| - 1].checkpoint;
    SameInputs(a, h);
    FinishedCheckpoint(c);
    OnlyIncomplete(h, c.items);
    if c.completed == TOTAL_SLICES {
      CollectedReports(a, h, 0);
      CollectedReports(a, h, 1);
      CollectedReports(a, h, 2);
      CollectThree(h, c.items);
    }
  }

  lemma CollectedLast(h: seq<Record>, items: seq<ItemState>, rest: seq<CapabilityEvidence>)
    requires items != [] && CollectedAll(h, items[..|items| - 1]) == Success(rest)
    requires Collected(h, items[|items| - 1]).Success?
    ensures CollectedAll(h, items) == Success(rest + [Collected(h, items[|items| - 1]).value])
  {
    hide Collected;
  }

  lemma CollectThree(h: seq<Record>, items: seq<ItemState>)
    requires |items| == INPUTS
    requires Collected(h, items[0]).Success? && Collected(h, items[1]).Success? && Collected(h, items[2]).Success?
    ensures CollectedAll(h, items)
         == Success([Collected(h, items[0]).value, Collected(h, items[1]).value, Collected(h, items[2]).value])
  {
    hide Collected;
    var a, b, c := Collected(h, items[0]).value, Collected(h, items[1]).value, Collected(h, items[2]).value;
    assert items[..3] == items && items[..2][..1] == items[..1] && items[..1][..0] == [];
    CollectedLast(h, items[..1], []);
    assert [] + [a] == [a];
    CollectedLast(h, items[..2], [a]);
    assert [a] + [b] == [a, b];
    CollectedLast(h, items, [a, b]);
    assert [a, b] + [c] == [a, b, c];
  }

  /** The restart part reports the dispatched resume, its spend and whether it broke the budget. */
  predicate Resumes(c: Checkpoint, restart: RestartEvidence) {
    && c.resumeAuthorization.Some? && c.resumeDispatch.Some?
    && var resumed := c.resumeDispatch.value;
    && restart.resumedAuthorityId == resumed.executionAuthorityId == c.resumeAuthorization.value.receiptId
    && restart.resumedCommandId == resumed.commandId && restart.resumedResultId == resumed.resultId
    && restart.resumeActualSpend == (if resumed.resumeActualSpend.None? then 0.0 else resumed.resumeActualSpend.value)
    && restart.resumeBudgetViolation == resumed.resumeBudgetViolation
  }

  lemma LastOfAssembly(a: Uuid, h: seq<Record>)
    requires AcceptedHistory(a, h)
    ensures |h| > 0 && h[|h| - 1].checkpoint.assemblyId == a
  {
    hide ValidCheckpoint, AcceptedHistory, TransitionAccepted, FirstAccepted, ShapeAccepted, DigestAccepted;
    HasRecords(a, h);
    AcceptedStep(a, h, |h| - 1);
  }

  /** A capability's evidence is about the input its reservation is for. */
  lemma EvidenceMatchesReservation(c: Checkpoint, i: nat)
    requires Lawful(c) && c.completed == TOTAL_SLICES && i < INPUTS
    ensures c.items[i].evidence.Some?
    ensures c.items[i].request.reservation.inputId == c.items[i].evidence.value.inputId
  {
    hide ItemLawful, ShapeAccepted, Lexicographic, Tiled, OutcomesPrecede, ResumeLawful, DistinctReceipts,
      DistinctOutcomes, ValidItem, ValidOutcome, ValidReceipt, DistinctInputs;
    FinishedItem(c, i);
    EvidenceAtLast(c.items[i]);
    assert ValidInputRequest(c.request.inputs[i]);
  }

  /** What a report promises: its costs stay within the admitted ceiling, and the resumed execution is a
   *  new one of the first capability that books the same amount. */
  lemma ReportKeepsBudget(a: Uuid, h: seq<Record>)
    requires Chronicle(a, h) && |h[|h| - 1].checkpoint.items| == INPUTS && Report(h).Success?
    ensures var e := Report(h).value;
      && 0.0 <= e.bookedCost <= e.maximumCost <= 6.0
      && |e.capabilities| == INPUTS
      && e.runId == e.restart.runId == a
      && |e.reservations| == INPUTS
      && (forall i :: 0 <= i < INPUTS ==> e.reservations[i].inputId == e.capabilities[i].inputId)
      && e.restart.reservationId == e.reservations[0].reservationId
      && e.restart.jobId == e.capabilities[0].jobId
      && e.restart.capabilityId == e.capabilities[0].capabilityId
      && e.restart.capabilityVersion == e.capabilities[0].capabilityVersion
      && e.restart.eventId == e.capabilities[0].eventId && e.restart.readbackId == e.capabilities[0].readbackId
      && e.restart.totalBookedCost == e.capabilities[0].bookedCost
      && Resumes(h[|h| - 1].checkpoint, e.restart)
      && e.restart.originalCommandId == e.capabilities[0].commandId
      && e.restart.originalResultId == e.capabilities[0].resultId
      && Some(e.restart.resumedCommandId) != e.restart.originalCommandId
      && Some(e.restart.resumedResultId) != e.restart.originalResultId
  {
    hide Chronicle, Lawful, AcceptedHistory, ItemLawful, Collected, CollectedAll, RefsIn, Start, RefsOf;
    LastIsLawful(a, h);
    var c := h[|h| - 1].checkpoint;
    FinishedIffReported(a, h);
    FinishedCheckpoint(c);
    CostsWithinCeiling(c);
    ResumeOfFinished(c);
    LastOfAssembly(a, h);
    EvidenceMatchesReservation(c, 0);
    EvidenceMatchesReservation(c, 1);
    EvidenceMatchesReservation(c, 2);
    var caps := Report(h).value.capabilities;
    BookedThree(caps);
    assert forall i :: 0 <= i < INPUTS ==> Reports(h, c.items[i], i, caps[i]);
    assert Reports(h, c.items[0], 0, caps[0]) && Reports(h, c.items[1], 1, caps[1]);
    assert Reports(h, c.items[2], 2, caps[2]);
  }

  /** What a report states in figures: the booked cost is the sum over its capabilities of the costs that the last
   *  record stores, the ceiling and the reservations are those of the request, and the restart is traced by the
   *  first capability's correlation. */
  lemma ReportAddsUp(a: Uuid, h: seq<Record>)
    requires Chronicle(a, h) && |h[|h| - 1].checkpoint.items| == INPUTS && Report(h).Success?
    ensures var c, e := h[|h| - 1].checkpoint, Report(h).value;
      && |e.capabilities| == INPUTS && |e.reservations| == INPUTS && |c.request.inputs| == INPUTS
      && e.bookedCost == e.capabilities[0].bookedCost + e.capabilities[1].bookedCost + e.capabilities[2].bookedCost
      && (forall i :: 0 <= i < INPUTS ==>
            && c.items[i].releaseAuthority.Some?
            && e.capabilities[i].bookedCost == c.items[i].releaseAuthority.value.bookedCost
            && e.capabilities[i].inputId == c.request.inputs[i].inputId
            && e.reservations[i] == c.request.inputs[i].reservation)
      && e.maximumCost == c.request.maximumCost
      && e.restart.correlationId == e.capabilities[0].correlationId
  {
    hide Chronicle, Lawful, AcceptedHistory, ItemLawful, Collected, CollectedAll, RefsIn, Start, RefsOf,
      ValidCheckpoint;
    LastIsLawful(a, h);
    var c := h[|h| - 1].checkpoint;
    FinishedIffReported(a, h);
    FinishedCheckpoint(c);
    SameRequest(a, h, |h| - 1);
    ItemsOfRequest(c);
    var caps := Report(h).value.capabilities;
    BookedThree(caps);
    forall i | 0 <= i < INPUTS
      ensures c.items[i].releaseAuthority.Some? && caps[i].bookedCost == c.items[i].releaseAuthority.value.bookedCost
      ensures caps[i].inputId == c.items[i].request.inputId
    {
      FinishedItem(c, i);
      EvidenceAtLast(c.items[i]);
      assert Reports(h, c.items[i], i, caps[i]);
    }
  }

  lemma BookedThree(caps: seq<CapabilityEvidence>)
    requires |caps| == INPUTS
    ensures Booked(caps) == caps[0].bookedCost + caps[1].bookedCost + caps[2].bookedCost
  {
    assert caps[..2][..1] == caps[..1] && caps[..1][..0] == [];
    assert Booked(caps[..0]) == 0.0;
    assert Booked(caps[..1]) == Booked([]) + caps[0].bookedCost;
  }
}
