/** What a neighbour in an accepted history may change: the five admitted transitions, each as the one change it
 *  makes to a checkpoint. */
module HistoryTransitions {
  import opened Wrappers
  import opened AssemblyContracts
  import opened AssemblyTransitions
  import opened HistoryValidation
  import opened HistoryLaws

  /** The same checkpoint under another revision and status. */
  ghost function Restamped(c: Checkpoint, stamp: Checkpoint): Checkpoint {
    c.(revision := stamp.revision, status := stamp.status)
  }

  /** A claim over the next slices is taken. */
  ghost predicate TakesClaim(before: Checkpoint, after: Checkpoint) {
    && before.active.None? && before.started.None? && after.active.Some?
    && after == Restamped(before, after).(active := after.active)
    && after.active.value.start == before.completed
    && after.active.value.target
       == if before.completed + after.active.value.maximum < TOTAL_SLICES
          then before.completed + after.active.value.maximum else TOTAL_SLICES
  }

  /** The next slice of the active advance is marked started. */
  ghost predicate MarksStart(before: Checkpoint, after: Checkpoint) {
    && before.active.Some? && before.started.None? && after.started.Some?
    && after == Restamped(before, after).(started := SliceFor(before.completed, before))
  }

  /** The started slice is cleared under a retry outcome about this very start. */
  ghost predicate ClearsStart(before: Checkpoint, after: Checkpoint, ref: ArtifactRef) {
    && before.active.Some? && before.started.Some? && after.outcomes != []
    && var last := after.outcomes[|after.outcomes| - 1];
    && after == Restamped(before, after).(started := None, outcomes := before.outcomes + [last])
    && last.disposition == RetryAuthorizedNoEffect
    && last.scope.startedSlice == before.started.value && last.scope.startedRef == ref
  }

  /** The active advance is closed by a receipt of its own. */
  ghost predicate ClosesAdvance(before: Checkpoint, after: Checkpoint) {
    && before.active.Some? && before.started.None? && after.receipts != []
    && var receipt, active := after.receipts[|after.receipts| - 1], before.active.value;
    && after == Restamped(before, after).(active := None, receipts := before.receipts + [receipt])
    && receipt == AdvanceReceipt(receipt.assemblyId, active.operationId, active.requestSha, active.maximum,
                                 active.start, before.completed, receipt.executed, receipt.status)
  }

  /** The item has one more stage, and only what that stage issues is new. */
  ghost predicate PassesStage(before: ItemState, after: ItemState, stage: Stage) {
    && after.request == before.request && after.admitted == before.admitted
    && after.completedStages == before.completedStages + [stage]
    && (stage in {Evaluate, Promote, Execute, Project} ==> after.stageAuthority == before.stageAuthority)
    && (stage != Evaluate ==> after.benchmarkAuthority == before.benchmarkAuthority)
    && (stage != Promote ==> after.releaseAuthority == before.releaseAuthority)
    && (stage != Execute ==> after.executionAuthority == before.executionAuthority)
    && (stage != Project ==>
          after.projectionAuthority == before.projectionAuthority && after.evidence == before.evidence)
  }

  /** The started slice is done: one stage of one item, or the next resume authority, with at most a terminal
   *  outcome about this very start. */
  ghost predicate CompletesSlice(before: Checkpoint, after: Checkpoint, ref: ArtifactRef) {
    && before.active.Some? && before.started.Some? && before.started == SliceFor(before.completed, before)
    && before.completed < before.active.value.target
    && |before.items| == INPUTS && |after.items| == INPUTS
    && after == Restamped(before, after).(
         completed := before.completed + 1, items := after.items, resumeAuthorization := after.resumeAuthorization,
         resumeDispatch := after.resumeDispatch, resumeReadback := after.resumeReadback, last := before.started,
         started := None, outcomes := after.outcomes)
    && (after.outcomes != before.outcomes ==>
          && after.outcomes != []
          && var last := after.outcomes[|after.outcomes| - 1];
          && after.outcomes == before.outcomes + [last]
          && last.disposition == TerminalReadback
          && last.scope.startedSlice == before.started.value && last.scope.startedRef == ref)
    && (if before.completed < INPUT_SLICES then
          var index, stage := before.completed / STAGES_PER_INPUT, STAGES[before.completed % STAGES_PER_INPUT];
          && PassesStage(before.items[index], after.items[index], stage)
          && after.items == before.items[index := after.items[index]]
        else
          after.items == before.items)
    && (if before.completed == INPUT_SLICES then before.resumeAuthorization.None? && after.resumeAuthorization.Some?
        else after.resumeAuthorization == before.resumeAuthorization)
    && (if before.completed == INPUT_SLICES + 1 then before.resumeDispatch.None? && after.resumeDispatch.Some?
        else after.resumeDispatch == before.resumeDispatch)
    && (if before.completed == INPUT_SLICES + 2 then before.resumeReadback.None? && after.resumeReadback.Some?
        else after.resumeReadback == before.resumeReadback)
  }

  ghost predicate Steps(before: Checkpoint, after: Checkpoint, ref: ArtifactRef) {
    TakesClaim(before, after) || MarksStart(before, after) || ClearsStart(before, after, ref)
    || ClosesAdvance(before, after) || CompletesSlice(before, after, ref)
  }

  lemma RestingIff(prior: Record, current: Record)
    requires ValidCheckpoint(prior.checkpoint) && ValidCheckpoint(current.checkpoint)
    requires current.checkpoint.assemblyId == prior.checkpoint.assemblyId
    requires current.checkpoint.request == prior.checkpoint.request
    requires current.checkpoint.requestSha == prior.checkpoint.requestSha
    requires current.checkpoint.completed == prior.checkpoint.completed
    ensures TransitionAccepted(prior, current) <==> Steps(prior.checkpoint, current.checkpoint, prior.ref)
  {
    hide ValidParts, DistinctReceipts, DistinctOutcomes, StageSlices, AuthorityAccepted, SliceFor;
  }

  lemma PassesStageIff(before: ItemState, after: ItemState, stage: Stage)
    ensures after == WithAllowedChanges(before, after, stage) <==> PassesStage(before, after, stage)
  {
  }

  lemma AuthorityIff(prior: Checkpoint, current: Checkpoint)
    requires ValidCheckpoint(prior) && ValidCheckpoint(current) && prior.completed < TOTAL_SLICES
    requires prior.started == SliceFor(prior.completed, prior) && current.completed == prior.completed + 1
    ensures |prior.items| == INPUTS && |current.items| == INPUTS && prior.started.Some?
    ensures AuthorityAccepted(prior, current, prior.started.value)
      <==> && (if prior.completed < INPUT_SLICES then
                 var index, stage := prior.completed / STAGES_PER_INPUT, STAGES[prior.completed % STAGES_PER_INPUT];
                 && PassesStage(prior.items[index], current.items[index], stage)
                 && current.items == prior.items[index := current.items[index]]
               else
                 current.items == prior.items)
           && (if prior.completed == INPUT_SLICES then
                 prior.resumeAuthorization.None? && current.resumeAuthorization.Some?
               else current.resumeAuthorization == prior.resumeAuthorization)
           && (if prior.completed == INPUT_SLICES + 1 then prior.resumeDispatch.None? && current.resumeDispatch.Some?
               else current.resumeDispatch == prior.resumeDispatch)
           && (if prior.completed == INPUT_SLICES + 2 then prior.resumeReadback.None? && current.resumeReadback.Some?
               else current.resumeReadback == prior.resumeReadback)
  {
    hide ValidParts, WithAllowedChanges, PassesStage, DistinctReceipts, DistinctOutcomes;
    ItemsPresent(prior);
    ItemsPresent(current);
    if prior.completed < INPUT_SLICES {
      var index := prior.completed / STAGES_PER_INPUT;
      ItemIndexOfOrdinal(prior, index);
      PassesStageIff(prior.items[index], current.items[index], STAGES[prior.completed % STAGES_PER_INPUT]);
    }
  }

  lemma ItemsPresent(c: Checkpoint)
    requires ValidCheckpoint(c)
    ensures |c.items| == INPUTS && StageSlices(c) <= INPUT_SLICES
  {
    hide ValidSubmit, ValidOutcome, DistinctReceipts, DistinctOutcomes;
  }

  lemma CompletionIff(prior: Record, current: Record)
    requires ValidCheckpoint(prior.checkpoint) && ValidCheckpoint(current.checkpoint)
    requires current.checkpoint.assemblyId == prior.checkpoint.assemblyId
    requires current.checkpoint.request == prior.checkpoint.request
    requires current.checkpoint.requestSha == prior.checkpoint.requestSha
    requires current.checkpoint.completed != prior.checkpoint.completed
    ensures TransitionAccepted(prior, current) <==> Steps(prior.checkpoint, current.checkpoint, prior.ref)
  {
    hide ValidParts, DistinctReceipts, DistinctOutcomes, StageSlices, AuthorityAccepted, SliceFor, PassesStage;
    var before, after := prior.checkpoint, current.checkpoint;
    if after.completed == before.completed + 1 && before.started == SliceFor(before.completed, before) {
      AuthorityIff(before, after);
    }
  }

  /** Neighbours of one assembly are admitted exactly when the later one makes one of the five changes. */
  lemma TransitionIff(prior: Record, current: Record)
    requires ValidCheckpoint(prior.checkpoint) && ValidCheckpoint(current.checkpoint)
    requires current.checkpoint.assemblyId == prior.checkpoint.assemblyId
    requires current.checkpoint.request == prior.checkpoint.request
    requires current.checkpoint.requestSha == prior.checkpoint.requestSha
    ensures TransitionAccepted(prior, current) <==> Steps(prior.checkpoint, current.checkpoint, prior.ref)
  {
    if current.checkpoint.completed == prior.checkpoint.completed {
      RestingIff(prior, current);
    } else {
      CompletionIff(prior, current);
    }
  }

  /** A record belongs to its place in the assembly's history, under its own digest; its inputs come from three
   *  different sources, and the slices it names last done and started are the ones its progress names. */
  ghost predicate BelongsAt(assemblyId: Uuid, first: Checkpoint, record: Record, revision: nat) {
    var c := record.checkpoint;
    && record.ref.sha256 == OfCheckpoint(c) && record.ref.json
    && c.assemblyId == assemblyId && c.revision == revision
    && c.request == first.request && c.requestSha == first.requestSha
    && |c.items| == INPUTS
    && (forall i, j :: 0 <= i < j < INPUTS ==>
          && c.items[i].admitted.input.sourceRef.sha256 != c.items[j].admitted.input.sourceRef.sha256
          && c.items[i].admitted.input.sourceRef.uri != c.items[j].admitted.input.sourceRef.uri)
    && c.last == (if c.completed == 0 then None else SliceFor(c.completed - 1, c))
    && (c.started.Some? ==> c.started == SliceFor(c.completed, c))
  }

  lemma RecordIff(assemblyId: Uuid, first: Checkpoint, record: Record, revision: nat)
    requires ValidCheckpoint(record.checkpoint)
    ensures RecordAccepted(assemblyId, first, record, revision) <==> BelongsAt(assemblyId, first, record, revision)
  {
    hide ValidParts, DistinctReceipts, DistinctOutcomes, StageSlices, SliceFor;
    ItemsPresent(record.checkpoint);
    if record.checkpoint.completed > 0 {
      LastSliceExists(record.checkpoint);
    }
    SourcesIff(record.checkpoint);
  }

  lemma SourcesIff(c: Checkpoint)
    requires |c.items| == INPUTS
    ensures DistinctSources(Sources(c))
      <==> forall i, j :: 0 <= i < j < INPUTS ==>
             && c.items[i].admitted.input.sourceRef.sha256 != c.items[j].admitted.input.sourceRef.sha256
             && c.items[i].admitted.input.sourceRef.uri != c.items[j].admitted.input.sourceRef.uri
  {
    var sources := Sources(c);
    assert forall i :: 0 <= i < INPUTS ==> sources[i] == c.items[i].admitted;
    if forall i, j :: 0 <= i < j < INPUTS ==>
         && c.items[i].admitted.input.sourceRef.sha256 != c.items[j].admitted.input.sourceRef.sha256
         && c.items[i].admitted.input.sourceRef.uri != c.items[j].admitted.input.sourceRef.uri {
      assert DistinctSources(sources);
    }
  }

  lemma LastSliceExists(c: Checkpoint)
    requires |c.items| == INPUTS && 0 < c.completed <= TOTAL_SLICES
    ensures SliceFor(c.completed - 1, c).Some?
  {
  }

  /** The validator accepts exactly the histories that begin with an untouched assembly, whose records belong at
   *  their places, and whose neighbours differ by one of the five changes. */
  lemma AcceptedIff(assemblyId: Uuid, history: seq<Record>)
    requires history != [] && Decoded(history)
    ensures AcceptedHistory(assemblyId, history)
      <==> (var first := history[0].checkpoint;
            && first.requestSha == OfRequest(first.request)
            && first.completed == 0 && first.status == Admitted
            && (forall i :: 0 <= i < |history| ==> BelongsAt(assemblyId, first, history[i], i + 1))
            && (forall i, j :: 0 <= i < j < |history| && j == i + 1 ==>
                  Steps(history[i].checkpoint, history[j].checkpoint, history[i].ref)))
  {
    hide ValidCheckpoint, BelongsAt, RecordAccepted, TransitionAccepted, Steps;
    var first := history[0].checkpoint;
    forall i | 0 <= i < |history|
      ensures RecordAccepted(assemblyId, first, history[i], i + 1) <==> BelongsAt(assemblyId, first, history[i], i + 1)
    {
      RecordIff(assemblyId, first, history[i], i + 1);
    }
    forall i, j | 0 <= i < j < |history| && j == i + 1
                  && BelongsAt(assemblyId, first, history[i], i + 1) && BelongsAt(assemblyId, first, history[j], j + 1)
      ensures TransitionAccepted(history[i], history[j])
        <==> Steps(history[i].checkpoint, history[j].checkpoint, history[i].ref)
    {
      SameAssembly(assemblyId, first, history[i], i + 1);
      SameAssembly(assemblyId, first, history[j], j + 1);
      TransitionIff(history[i], history[j]);
    }
    AcceptedByParts(assemblyId, history);
    SameAssemblyFirst(assemblyId, history);
  }

  lemma SameAssembly(assemblyId: Uuid, first: Checkpoint, record: Record, revision: nat)
    requires BelongsAt(assemblyId, first, record, revision)
    ensures record.checkpoint.assemblyId == assemblyId && record.checkpoint.revision == revision
    ensures record.checkpoint.request == first.request && record.checkpoint.requestSha == first.requestSha
  {
  }

  lemma SameAssemblyFirst(assemblyId: Uuid, history: seq<Record>)
    requires history != []
    ensures BelongsAt(assemblyId, history[0].checkpoint, history[0], 1) ==>
      history[0].checkpoint.assemblyId == assemblyId && history[0].checkpoint.revision == 1
  {
  }

  lemma AcceptedByParts(assemblyId: Uuid, history: seq<Record>)
    requires history != [] && Decoded(history)
    ensures AcceptedHistory(assemblyId, history)
      <==> && FirstAccepted(assemblyId, history[0].checkpoint)
           && (forall i :: 0 <= i < |history| ==> RecordAccepted(assemblyId, history[0].checkpoint, history[i], i + 1))
           && (forall i, j :: 0 <= i < j < |history| && j == i + 1 ==> TransitionAccepted(history[i], history[j]))
  {
    hide ValidCheckpoint, RecordAccepted, TransitionAccepted, FirstAccepted;
    var parts :=
      && (forall i :: 0 <= i < |history| ==> RecordAccepted(assemblyId, history[0].checkpoint, history[i], i + 1))
      && (forall i, j :: 0 <= i < j < |history| && j == i + 1 ==> TransitionAccepted(history[i], history[j]));
    if parts {
      forall i | 0 <= i < |history|
        ensures AcceptedAt(assemblyId, history, i)
      {
      }
    }
    if forall i :: 0 <= i < |history| ==> AcceptedAt(assemblyId, history, i) {
      forall i | 0 <= i < |history|
        ensures RecordAccepted(assemblyId, history[0].checkpoint, history[i], i + 1)
      {
        assert AcceptedAt(assemblyId, history, i);
      }
      forall i, j | 0 <= i < j < |history| && j == i + 1
        ensures TransitionAccepted(history[i], history[j])
      {
        assert AcceptedAt(assemblyId, history, j);
      }
    }
  }
}
