/** `_validate_history`: which checkpoint histories the controller accepts when it reads them back. */
module HistoryValidation {
  import opened Wrappers
  import opened AssemblyContracts
  import opened AssemblyTransitions

  function Sources(c: Checkpoint): seq<AdmittedInput>
    requires |c.items| == INPUTS
  {
    [c.items[0].admitted, c.items[1].admitted, c.items[2].admitted]
  }

  predicate FirstAccepted(assemblyId: Uuid, first: Checkpoint) {
    && first.requestSha == OfRequest(first.request)
    && first.assemblyId == assemblyId
    && first.revision == 1
    && first.completed == 0
    && first.status == Admitted
  }

  predicate ShapeAccepted(c: Checkpoint) {
    && |c.items| == INPUTS
    && DistinctSources(Sources(c))
    && ResumeOrdered(c)
    && c.completed == StageSlices(c) + ResumeCount(c)
    && (c.completed == TOTAL_SLICES <==> c.status == ReadyToUse)
    && (c.active.Some? ==> c.active.value.start <= c.completed <= c.active.value.target)
    && (c.started.Some? ==> c.active.Some? && c.started == SliceFor(c.completed, c))
    && (c.completed == 0 ==> c.last.None?)
    && (c.completed > 0 ==> c.last.Some? && c.last == SliceFor(c.completed - 1, c))
  }

  predicate DigestAccepted(record: Record) {
    record.ref.sha256 == OfCheckpoint(record.checkpoint) && record.ref.json
  }

  predicate RecordAccepted(assemblyId: Uuid, first: Checkpoint, record: Record, revision: nat) {
    && DigestAccepted(record)
    && ShapeAccepted(record.checkpoint)
    && record.checkpoint.assemblyId == assemblyId
    && record.checkpoint.revision == revision
    && record.checkpoint.request == first.request
    && record.checkpoint.requestSha == first.requestSha
  }

  predicate SameAuthority(prior: Checkpoint, current: Checkpoint) {
    && current.items == prior.items
    && current.resumeAuthorization == prior.resumeAuthorization
    && current.resumeDispatch == prior.resumeDispatch
    && current.resumeReadback == prior.resumeReadback
  }

  predicate ClaimAccepted(prior: Checkpoint, current: Checkpoint)
    requires current.active.Some?
  {
    && current.receipts == prior.receipts
    && current.outcomes == prior.outcomes
    && prior.started.None?
    && current.started.None?
    && current.active.value.start == prior.completed
    && current.active.value.target == TargetOf(prior.completed, current.active.value.maximum)
  }

  predicate StartAccepted(prior: Checkpoint, current: Checkpoint) {
    && prior.active.Some?
    && current.active == prior.active
    && prior.started.None?
    && SliceFor(prior.completed, prior).Some?
    && current.started == SliceFor(prior.completed, prior)
    && current.receipts == prior.receipts
    && current.outcomes == prior.outcomes
  }

  /** `current` records one more outcome of this disposition for the slice started at `ref`. */
  predicate OneOutcomeMore(prior: Checkpoint, current: Checkpoint, ref: ArtifactRef, disposition: Disposition) {
    && |current.outcomes| == |prior.outcomes| + 1
    && current.outcomes[..|prior.outcomes|] == prior.outcomes
    && var added := current.outcomes[|prior.outcomes|];
    && added.disposition == disposition
    && Some(added.scope.startedSlice) == prior.started
    && added.scope.startedRef == ref
  }

  predicate ClearAccepted(prior: Checkpoint, current: Checkpoint, ref: ArtifactRef) {
    && prior.active.Some?
    && current.active == prior.active
    && prior.started.Some?
    && current.started.None?
    && current.receipts == prior.receipts
    && OneOutcomeMore(prior, current, ref, RetryAuthorizedNoEffect)
  }

  predicate FinishAccepted(prior: Checkpoint, current: Checkpoint) {
    && prior.active.Some?
    && current.active.None?
    && prior.started.None?
    && current.started.None?
    && current.outcomes == prior.outcomes
    && |current.receipts| == |prior.receipts| + 1
    && current.receipts[..|prior.receipts|] == prior.receipts
    && var receipt, active := current.receipts[|prior.receipts|], prior.active.value;
    && receipt.operationId == active.operationId
    && receipt.requestSha == active.requestSha
    && receipt.maximum == active.maximum
    && receipt.start == active.start
    && receipt.end == prior.completed
  }

  /** Fields of the item that a stage may change, besides its completed stages. */
  function WithAllowedChanges(before: ItemState, after: ItemState, stage: Stage): ItemState {
    var next := before.(completedStages := before.completedStages + [stage]);
    match stage
    case Evaluate => next.(benchmarkAuthority := after.benchmarkAuthority)
    case Promote => next.(releaseAuthority := after.releaseAuthority)
    case Execute => next.(executionAuthority := after.executionAuthority)
    case Project => next.(projectionAuthority := after.projectionAuthority, evidence := after.evidence)
    case _ => next.(stageAuthority := after.stageAuthority)
  }

  predicate AuthorityAccepted(prior: Checkpoint, current: Checkpoint, slice: Slice) {
    if |prior.items| != INPUTS || |current.items| != INPUTS then false
    else if slice.inputId.Some? then
      var index := ItemIndex(prior.items, slice.inputId.value);
      && index < INPUTS
      && slice.kind.InputStage?
      && (forall i :: 0 <= i < INPUTS && i != index ==> current.items[i] == prior.items[i])
      && current.items[index] == WithAllowedChanges(prior.items[index], current.items[index], slice.kind.stage)
      && current.resumeAuthorization == prior.resumeAuthorization
      && current.resumeDispatch == prior.resumeDispatch
      && current.resumeReadback == prior.resumeReadback
    else
      && current.items == prior.items
      && match slice.kind
         case ResumeAuthorize =>
           && prior.resumeAuthorization.None?
           && current.resumeAuthorization.Some?
           && current.resumeDispatch.None?
           && current.resumeReadback.None?
         case ResumeDispatch =>
           && current.resumeAuthorization == prior.resumeAuthorization
           && prior.resumeDispatch.None?
           && current.resumeDispatch.Some?
           && current.resumeReadback.None?
         case _ =>
           && current.resumeAuthorization == prior.resumeAuthorization
           && current.resumeDispatch == prior.resumeDispatch
           && prior.resumeReadback.None?
           && current.resumeReadback.Some?
  }

  predicate CompletionAccepted(prior: Checkpoint, current: Checkpoint, ref: ArtifactRef) {
    var slice := SliceFor(prior.completed, prior);
    && prior.active.Some?
    && current.active == prior.active
    && current.receipts == prior.receipts
    && current.completed <= prior.active.value.target
    && slice.Some?
    && prior.started == slice
    && current.started.None?
    && current.last == slice
    && (current.outcomes == prior.outcomes || OneOutcomeMore(prior, current, ref, TerminalReadback))
    && AuthorityAccepted(prior, current, slice.value)
  }

  predicate RestingAccepted(prior: Checkpoint, current: Checkpoint, ref: ArtifactRef) {
    && SameAuthority(prior, current)
    && current.last == prior.last
    && if prior.active.None? && current.active.Some? then ClaimAccepted(prior, current)
       else
         StartAccepted(prior, current) || ClearAccepted(prior, current, ref) || FinishAccepted(prior, current)
  }

  /** `_require_history_transition` for one pair of neighbouring records. */
  predicate TransitionAccepted(prior: Record, current: Record) {
    var before, after := prior.checkpoint, current.checkpoint;
    if after.completed == before.completed then RestingAccepted(before, after, prior.ref)
    else after.completed == before.completed + 1 && CompletionAccepted(before, after, prior.ref)
  }

  /** Records decode to checkpoints that satisfy their own contract. */
  predicate Decoded(history: seq<Record>) {
    forall i :: 0 <= i < |history| ==> ValidCheckpoint(history[i].checkpoint)
  }

  /** The record at index `i` is sound by itself and follows the record before it. */
  predicate AcceptedAt(assemblyId: Uuid, history: seq<Record>, i: nat)
    requires i < |history|
  {
    && RecordAccepted(assemblyId, history[0].checkpoint, history[i], i + 1)
    && (i > 0 ==> TransitionAccepted(history[i - 1], history[i]))
  }

  predicate AcceptedHistory(assemblyId: Uuid, history: seq<Record>) {
    && |history| > 0
    && Decoded(history)
    && FirstAccepted(assemblyId, history[0].checkpoint)
    && (forall i :: 0 <= i < |history| ==> AcceptedAt(assemblyId, history, i))
  }

  // ---------------------------------------------------------------- the validator

  /** Every consumed receipt was booked by some outcome among the first `count`. */
  ghost predicate BookedBy(consumed: map<Uuid, RetryAuthorization>, outcomes: seq<Outcome>, count: nat)
    requires count <= |outcomes|
  {
    forall id :: id in consumed ==>
      exists i :: 0 <= i < count && outcomes[i].retry.Some? && outcomes[i].retry.value.receiptId == id
  }

  /** The dictionary before record `i`: every booked receipt is one of the previous record's. */
  ghost predicate ReceiptsBooked(history: seq<Record>, i: nat, consumed: map<Uuid, RetryAuthorization>)
    requires i <= |history|
  {
    if i == 0 then consumed == map[]
    else BookedBy(consumed, history[i - 1].checkpoint.outcomes, |history[i - 1].checkpoint.outcomes|)
  }

  /** An admitted transition only adds outcomes, so what was booked stays booked. */
  lemma BookedCarriesOver(prior: Record, current: Record, consumed: map<Uuid, RetryAuthorization>)
    requires TransitionAccepted(prior, current)
    requires BookedBy(consumed, prior.checkpoint.outcomes, |prior.checkpoint.outcomes|)
    ensures |prior.checkpoint.outcomes| <= |current.checkpoint.outcomes|
    ensures BookedBy(consumed, current.checkpoint.outcomes, |prior.checkpoint.outcomes|)
  {
  }

  /** Book the retry receipts of the outcomes from `start` on, unless one was booked before. */
  method BookReceipts(consumed: map<Uuid, RetryAuthorization>, outcomes: seq<Outcome>, start: nat)
    returns (unused: bool, booked: map<Uuid, RetryAuthorization>)
    requires start <= |outcomes|
    ensures unused && BookedBy(consumed, outcomes, start) ==> BookedBy(booked, outcomes, |outcomes|)
    ensures DistinctOutcomes(outcomes) && BookedBy(consumed, outcomes, start) ==> unused
  {
    booked := consumed;
    for i := start to |outcomes|
      invariant BookedBy(consumed, outcomes, start) ==> BookedBy(booked, outcomes, i)
    {
      if outcomes[i].retry.Some? {
        var receiptId := outcomes[i].retry.value.receiptId;
        if receiptId in booked {
          assert BookedBy(consumed, outcomes, start) ==>
              exists j :: 0 <= j < i && OutcomesClash(outcomes[j], outcomes[i]);
          return false, booked;
        }
        booked := booked[receiptId := outcomes[i].retry.value];
      }
    }
    return true, booked;
  }

  /** One turn of the validator's loop, for the record at index `i`. */
  method ValidateRecord(assemblyId: Uuid, history: seq<Record>, i: nat, consumed: map<Uuid, RetryAuthorization>)
    returns (accepted: bool, booked: map<Uuid, RetryAuthorization>)
    requires i < |history| && Decoded(history)
    requires ReceiptsBooked(history, i, consumed)
    ensures accepted <==> AcceptedAt(assemblyId, history, i)
    ensures accepted ==> ReceiptsBooked(history, i + 1, booked)
  {
    var record := history[i];
    var seen := if i == 0 then 0 else |history[i - 1].checkpoint.outcomes|;
    booked := consumed;
    assert ValidCheckpoint(record.checkpoint);
    hide RecordAccepted, TransitionAccepted;
    if i > 0 && TransitionAccepted(history[i - 1], record) {
      BookedCarriesOver(history[i - 1], record, consumed);
    }
    if !RecordAccepted(assemblyId, history[0].checkpoint, record, i + 1) || |record.checkpoint.outcomes| < seen {
      return false, booked;
    }
    var unused;
    unused, booked := BookReceipts(consumed, record.checkpoint.outcomes, seen);
    accepted := unused && (i > 0 ==> TransitionAccepted(history[i - 1], record));
  }

  /** The validator's loop over the records, with its dictionary of consumed retry receipts.
   *  On decoded records the dictionary refuses nothing that the transitions admit. */
  method ValidateHistory(assemblyId: Uuid, history: seq<Record>) returns (accepted: bool)
    requires |history| > 0 && Decoded(history)
    ensures accepted <==> AcceptedHistory(assemblyId, history)
  {
    hide AcceptedAt, FirstAccepted, ValidCheckpoint, BookedBy;
    if !FirstAccepted(assemblyId, history[0].checkpoint) {
      return false;
    }
    var consumed: map<Uuid, RetryAuthorization> := map[];
    for i := 0 to |history|
      invariant ReceiptsBooked(history, i, consumed)
      invariant forall j :: 0 <= j < i ==> AcceptedAt(assemblyId, history, j)
    {
      accepted, consumed := ValidateRecord(assemblyId, history, i, consumed);
      if !accepted {
        return;
      }
    }
    return true;
  }
}
