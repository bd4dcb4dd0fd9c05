/** What acceptance by `_validate_history` implies about a whole history, and what it does not. */
module HistoryLaws {
  import opened Wrappers
  import opened AssemblyContracts
  import opened AssemblyTransitions
  import opened HistoryValidation

  function Clamp(x: int, limit: nat): nat {
    if x < 0 then 0 else if x > limit then limit else x
  }

  /** The facts about one position of an accepted history, and its step from the position before. */
  lemma AcceptedStep(assemblyId: Uuid, history: seq<Record>, i: nat)
    requires AcceptedHistory(assemblyId, history) && i < |history|
    ensures ValidCheckpoint(history[i].checkpoint)
    ensures RecordAccepted(assemblyId, history[0].checkpoint, history[i], i + 1)
    ensures i == 0 ==> FirstAccepted(assemblyId, history[0].checkpoint)
    ensures i > 0 ==> ValidCheckpoint(history[i - 1].checkpoint) && TransitionAccepted(history[i - 1], history[i])
  {
    hide ValidCheckpoint, RecordAccepted, TransitionAccepted, FirstAccepted;
    assert AcceptedAt(assemblyId, history, i);
  }

  // ---------------------------------------------------------------- lexicographic progress

  /** Slices are completed in order: stage by stage, input by input, then the three resume slices. */
  predicate Lexicographic(c: Checkpoint) {
    && |c.items| == INPUTS
    && (forall i :: 0 <= i < INPUTS ==>
          c.items[i].completedStages == STAGES[..Clamp(c.completed - STAGES_PER_INPUT * i, STAGES_PER_INPUT)])
    && ResumeCount(c) == Clamp(c.completed - INPUT_SLICES, TOTAL_SLICES - INPUT_SLICES)
  }

  /** Input ids are distinct, so the item a slice names is the one its ordinal divides out. */
  lemma ItemIndexOfOrdinal(c: Checkpoint, index: nat)
    requires ValidCheckpoint(c) && index < INPUTS
    ensures ItemIndex(c.items, c.items[index].request.inputId) == index
  {
    var found := ItemIndex(c.items, c.items[index].request.inputId);
    assert found <= index;
    assert found < index ==> DistinctInputs(c.request.inputs[found], c.request.inputs[index]);
  }

  lemma LexicographicStart(c: Checkpoint)
    requires ValidCheckpoint(c) && c.completed == 0
    ensures Lexicographic(c)
  {
  }

  lemma StagePrefixExtends(k: nat)
    requires k < STAGES_PER_INPUT
    ensures STAGES[..k] + [STAGES[k]] == STAGES[..k + 1]
  {
  }

  /** What an accepted completion of an input slice did to the items. */
  lemma InputCompletion(before: Checkpoint, after: Checkpoint, ref: ArtifactRef, index: nat, k: nat)
    requires ValidCheckpoint(before) && before.completed == STAGES_PER_INPUT * index + k
    requires index < INPUTS && k < STAGES_PER_INPUT
    requires CompletionAccepted(before, after, ref)
    ensures |after.items| == INPUTS && ResumeCount(after) == ResumeCount(before)
    ensures forall i :: 0 <= i < INPUTS && i != index ==> after.items[i] == before.items[i]
    ensures after.items[index] == WithAllowedChanges(before.items[index], after.items[index], STAGES[k])
  {
    hide ValidParts, WithAllowedChanges, OneOutcomeMore;
    assert before.completed / STAGES_PER_INPUT == index && before.completed % STAGES_PER_INPUT == k;
    ItemIndexOfOrdinal(before, index);
  }

  lemma LexicographicInput(before: Checkpoint, after: Checkpoint, ref: ArtifactRef)
    requires ValidCheckpoint(before) && before.completed < INPUT_SLICES
    requires after.completed == before.completed + 1 && CompletionAccepted(before, after, ref)
    requires Lexicographic(before)
    ensures Lexicographic(after)
  {
    hide ValidCheckpoint, CompletionAccepted, STAGES, ResumeCount;
    var index, k := before.completed / STAGES_PER_INPUT, before.completed % STAGES_PER_INPUT;
    InputCompletion(before, after, ref, index, k);
    StagePrefixExtends(k);
  }

  lemma LexicographicResume(before: Checkpoint, after: Checkpoint, ref: ArtifactRef)
    requires INPUT_SLICES <= before.completed
    requires after.completed == before.completed + 1 && CompletionAccepted(before, after, ref)
    requires Lexicographic(before) && ResumeOrdered(after)
    ensures Lexicographic(after)
  {
    assert AuthorityAccepted(before, after, SliceFor(before.completed, before).value);
  }

  lemma LexicographicStep(prior: Record, current: Record)
    requires ValidCheckpoint(prior.checkpoint) && ValidCheckpoint(current.checkpoint)
    requires TransitionAccepted(prior, current)
    requires Lexicographic(prior.checkpoint)
    ensures Lexicographic(current.checkpoint)
  {
    var before, after := prior.checkpoint, current.checkpoint;
    hide CompletionAccepted, ClaimAccepted, StartAccepted, ClearAccepted, FinishAccepted, ValidParts;
    if after.completed == before.completed {
    } else if before.completed < INPUT_SLICES {
      LexicographicInput(before, after, prior.ref);
    } else {
      LexicographicResume(before, after, prior.ref);
    }
  }

  lemma {:induction false} LexicographicProgress(assemblyId: Uuid, history: seq<Record>, i: nat)
    requires AcceptedHistory(assemblyId, history) && i < |history|
    ensures ValidCheckpoint(history[i].checkpoint) && Lexicographic(history[i].checkpoint)
  {
    hide AcceptedHistory, ValidCheckpoint, TransitionAccepted, RecordAccepted, Lexicographic;
    AcceptedStep(assemblyId, history, i);
    if i == 0 {
      LexicographicStart(history[0].checkpoint);
    } else {
      LexicographicProgress(assemblyId, history, i - 1);
      LexicographicStep(history[i - 1], history[i]);
    }
  }

  // ---------------------------------------------------------------- accounting

  /** Retry outcomes, counted for one slice ordinal or for all of them. */
  function Retries(outcomes: seq<Outcome>, ordinal: Option<nat>): nat {
    if outcomes == [] then 0
    else
      var last := outcomes[|outcomes| - 1];
      Retries(outcomes[..|outcomes| - 1], ordinal)
      + if last.disposition == RetryAuthorizedNoEffect
           && (ordinal.None? || ordinal.value == last.scope.startedSlice.ordinal) then 1 else 0
  }

  function StartedAt(c: Checkpoint, ordinal: nat): nat {
    if c.started.Some? && c.started.value.ordinal == ordinal then 1 else 0
  }

  /** Records a checkpoint accounts for beyond the first. */
  function Weight(c: Checkpoint): nat {
    2 * |c.receipts| + 2 * c.completed + 2 * Retries(c.outcomes, None) + Present(c.active) + Present(c.started)
  }

  lemma RetriesAppend(
    prior: Checkpoint, current: Checkpoint, ref: ArtifactRef, disposition: Disposition, ordinal: Option<nat>)
    requires OneOutcomeMore(prior, current, ref, disposition)
    ensures Retries(current.outcomes, ordinal) == Retries(prior.outcomes, ordinal)
      + if disposition == RetryAuthorizedNoEffect && prior.started.Some?
           && (ordinal.None? || ordinal.value == prior.started.value.ordinal) then 1 else 0
  {
  }

  /** What each admitted transition does to the counted parts of a checkpoint. */
  predicate CountedStep(before: Checkpoint, after: Checkpoint, ref: ArtifactRef) {
    if after.completed != before.completed then
      && after.completed == before.completed + 1
      && before.active.Some? && after.active.Some? && |after.receipts| == |before.receipts|
      && StartedAt(before, before.completed) == 1 && after.started.None?
      && (after.outcomes == before.outcomes || OneOutcomeMore(before, after, ref, TerminalReadback))
    else if before.started.Some? then
      && before.active.Some? && after.active.Some? && |after.receipts| == |before.receipts|
      && StartedAt(before, before.completed) == 1 && after.started.None?
      && OneOutcomeMore(before, after, ref, RetryAuthorizedNoEffect)
    else
      && after.outcomes == before.outcomes
      && |after.receipts| == |before.receipts| + (if before.active.Some? && after.active.None? then 1 else 0)
      && (after.started.Some? ==> StartedAt(after, after.completed) == 1 && before.active.Some? && after.active.Some?)
      && (after.started.None? ==> Present(before.active) + Present(after.active) == 1)
  }

  lemma TransitionCounts(prior: Record, current: Record)
    requires ValidCheckpoint(prior.checkpoint) && ValidCheckpoint(current.checkpoint)
    requires TransitionAccepted(prior, current)
    ensures CountedStep(prior.checkpoint, current.checkpoint, prior.ref)
  {
    hide ValidParts, AuthorityAccepted, SameAuthority, DistinctReceipts, DistinctOutcomes, OneOutcomeMore;
  }

  lemma WeightStep(prior: Record, current: Record)
    requires ValidCheckpoint(prior.checkpoint) && ValidCheckpoint(current.checkpoint)
    requires TransitionAccepted(prior, current)
    ensures Weight(current.checkpoint) == Weight(prior.checkpoint) + 1
  {
    hide ValidCheckpoint, TransitionAccepted, Retries, OneOutcomeMore;
    var before, after := prior.checkpoint, current.checkpoint;
    TransitionCounts(prior, current);
    if OneOutcomeMore(before, after, prior.ref, RetryAuthorizedNoEffect) {
      RetriesAppend(before, after, prior.ref, RetryAuthorizedNoEffect, None);
    }
    if OneOutcomeMore(before, after, prior.ref, TerminalReadback) {
      RetriesAppend(before, after, prior.ref, TerminalReadback, None);
    }
  }

  /** What submission writes: no claim, no receipt and no consumed retry yet. */
  predicate CleanStart(c: Checkpoint) {
    c.active.None? && c.started.None? && c.receipts == [] && c.outcomes == []
  }

  lemma {:induction false} WeightGrowsByRevision(assemblyId: Uuid, history: seq<Record>, i: nat)
    requires AcceptedHistory(assemblyId, history) && i < |history|
    ensures history[i].checkpoint.revision == i + 1
    ensures Weight(history[i].checkpoint) == Weight(history[0].checkpoint) + i
  {
    hide AcceptedHistory, ValidCheckpoint, TransitionAccepted, Weight;
    AcceptedStep(assemblyId, history, i);
    if i > 0 {
      WeightGrowsByRevision(assemblyId, history, i - 1);
      WeightStep(history[i - 1], history[i]);
    }
  }

  /** The first record bears no claim, start, receipt or retry. */
  predicate WeightlessStart(c: Checkpoint) {
    c.active.None? && c.started.None? && c.receipts == [] && Retries(c.outcomes, None) == 0
  }

  /** Revisions account for every receipt, slice, retry, claim and start, exactly when the first
   *  record is weightless. The validator does not check that it is. */
  lemma AccountingIsExact(assemblyId: Uuid, history: seq<Record>)
    requires AcceptedHistory(assemblyId, history)
    ensures WeightlessStart(history[0].checkpoint) <==>
      forall i :: 0 <= i < |history| ==> history[i].checkpoint.revision == 1 + Weight(history[i].checkpoint)
  {
    hide ValidCheckpoint, AcceptedAt, Decoded, Retries;
    forall i | 0 <= i < |history|
      ensures history[i].checkpoint.revision + Weight(history[0].checkpoint) == 1 + Weight(history[i].checkpoint)
    {
      WeightGrowsByRevision(assemblyId, history, i);
    }
  }

  // ---------------------------------------------------------------- starts per slice

  /** Records that mark the slice with this ordinal started. */
  function Starts(history: seq<Record>, ordinal: nat): nat {
    if history == [] then 0
    else Starts(history[..|history| - 1], ordinal) + StartedAt(history[|history| - 1].checkpoint, ordinal)
  }

  /** Starts of a slice that the current checkpoint accounts for. */
  function StartBalance(c: Checkpoint, ordinal: nat): nat {
    Retries(c.outcomes, Some(ordinal)) + (if c.completed > ordinal then 1 else 0) + StartedAt(c, ordinal)
  }

  lemma StartBalanceStep(prior: Record, current: Record, ordinal: nat)
    requires ValidCheckpoint(prior.checkpoint) && ValidCheckpoint(current.checkpoint)
    requires TransitionAccepted(prior, current)
    ensures StartBalance(current.checkpoint, ordinal)
         == StartBalance(prior.checkpoint, ordinal) + StartedAt(current.checkpoint, ordinal)
  {
    hide ValidCheckpoint, TransitionAccepted, Retries, OneOutcomeMore;
    var before, after := prior.checkpoint, current.checkpoint;
    TransitionCounts(prior, current);
    if OneOutcomeMore(before, after, prior.ref, RetryAuthorizedNoEffect) {
      RetriesAppend(before, after, prior.ref, RetryAuthorizedNoEffect, Some(ordinal));
    }
    if OneOutcomeMore(before, after, prior.ref, TerminalReadback) {
      RetriesAppend(before, after, prior.ref, TerminalReadback, Some(ordinal));
    }
  }

  lemma AcceptedPrefix(assemblyId: Uuid, history: seq<Record>, n: nat)
    requires AcceptedHistory(assemblyId, history) && 0 < n <= |history|
    ensures AcceptedHistory(assemblyId, history[..n])
  {
    hide ValidCheckpoint, RecordAccepted, TransitionAccepted, FirstAccepted;
    forall i | 0 <= i < n
      ensures AcceptedAt(assemblyId, history[..n], i)
    {
      assert AcceptedAt(assemblyId, history, i);
    }
  }

  /** Each slice is started once per retry consumed along the history, and once more when it is done or
   *  under way. */
  lemma {:induction false} StartsAreRetriesPlusOne(assemblyId: Uuid, history: seq<Record>, ordinal: nat)
    requires AcceptedHistory(assemblyId, history)
    ensures var first, last := history[0].checkpoint, history[|history| - 1].checkpoint;
      && Starts(history, ordinal) + Retries(first.outcomes, Some(ordinal)) == StartBalance(last, ordinal)
      && Starts(history, ordinal) + Retries(first.outcomes, Some(ordinal))
         <= 1 + Retries(last.outcomes, Some(ordinal))
    decreases |history|
  {
    hide AcceptedAt, Decoded, TransitionAccepted, RecordAccepted, ValidParts, Retries;
    var n := |history| - 1;
    AcceptedStep(assemblyId, history, n);
    if n == 0 {
      assert history[..0] == [];
    } else {
      AcceptedPrefix(assemblyId, history, n);
      StartsAreRetriesPlusOne(assemblyId, history[..n], ordinal);
      StartBalanceStep(history[n - 1], history[n], ordinal);
    }
  }

  // ---------------------------------------------------------------- abutting receipts

  /** Where the recorded receipts end. */
  function Frontier(receipts: seq<AdvanceReceipt>): nat {
    if receipts == [] then 0 else receipts[|receipts| - 1].end
  }

  /** Receipts start at slice 0 and each begins where the one before ended. */
  predicate Abutting(receipts: seq<AdvanceReceipt>) {
    forall i :: 0 <= i < |receipts| ==> receipts[i].start == Frontier(receipts[..i])
  }

  /** The receipts account for everything but the progress of the active advance. */
  predicate Covered(c: Checkpoint) {
    && Abutting(c.receipts)
    && Frontier(c.receipts) == if c.active.Some? then c.active.value.start else c.completed
  }

  lemma AbuttingAppend(receipts: seq<AdvanceReceipt>, receipt: AdvanceReceipt)
    ensures Abutting(receipts + [receipt]) <==> Abutting(receipts) && receipt.start == Frontier(receipts)
  {
    var all := receipts + [receipt];
    assert forall i :: 0 <= i <= |receipts| ==> all[..i] == receipts[..i];
    assert receipts[..|receipts|] == receipts && all[|receipts|] == receipt;
    assert forall i :: 0 <= i < |receipts| ==> all[i] == receipts[i];
  }

  lemma CoveredStep(prior: Record, current: Record)
    requires ValidCheckpoint(prior.checkpoint) && ValidCheckpoint(current.checkpoint)
    requires TransitionAccepted(prior, current)
    ensures Covered(current.checkpoint) <==> Covered(prior.checkpoint)
  {
    hide Abutting, ValidParts, DistinctReceipts, DistinctOutcomes, StageSlices, AuthorityAccepted, OneOutcomeMore;
    var before, after := prior.checkpoint, current.checkpoint;
    if |after.receipts| == |before.receipts| + 1 {
      var receipt := after.receipts[|before.receipts|];
      assert after.receipts == before.receipts + [receipt];
      AbuttingAppend(before.receipts, receipt);
    }
  }

  /** Receipts of an accepted history account for its progress, in every record or in none. */
  lemma {:induction false} ReceiptsCoverProgress(assemblyId: Uuid, history: seq<Record>, i: nat)
    requires AcceptedHistory(assemblyId, history) && i < |history|
    ensures Covered(history[i].checkpoint) <==> Covered(history[0].checkpoint)
  {
    hide AcceptedHistory, ValidCheckpoint, TransitionAccepted, RecordAccepted, Covered;
    AcceptedStep(assemblyId, history, i);
    if i > 0 {
      ReceiptsCoverProgress(assemblyId, history, i - 1);
      CoveredStep(history[i - 1], history[i]);
    }
  }

  function Executed(receipts: seq<AdvanceReceipt>): nat {
    if receipts == [] then 0 else Executed(receipts[..|receipts| - 1]) + receipts[|receipts| - 1].executed
  }

  /** Slices that the receipts or the active advance account for. */
  function Accounted(c: Checkpoint): int {
    Executed(c.receipts) + if c.active.Some? then c.completed - c.active.value.start else 0
  }

  lemma AccountedStep(prior: Record, current: Record)
    requires ValidCheckpoint(prior.checkpoint) && ValidCheckpoint(current.checkpoint)
    requires TransitionAccepted(prior, current)
    ensures Accounted(current.checkpoint) - current.checkpoint.completed
         == Accounted(prior.checkpoint) - prior.checkpoint.completed
  {
    hide ValidSubmit, ValidItem, ValidOutcome, AuthorityAccepted, OneOutcomeMore, DistinctReceipts,
      DistinctOutcomes, StageSlices;
    var before, after := prior.checkpoint, current.checkpoint;
    if |after.receipts| == |before.receipts| + 1 {
      assert after.receipts[..|after.receipts| - 1] == before.receipts;
    }
  }

  /** The slices completed since the first record are those that receipts, or the active advance, gained. */
  lemma {:induction false} ExecutedSlicesAddUp(assemblyId: Uuid, history: seq<Record>, i: nat)
    requires AcceptedHistory(assemblyId, history) && i < |history|
    ensures var first, c := history[0].checkpoint, history[i].checkpoint;
      Accounted(c) == c.completed + Executed(first.receipts)
  {
    hide AcceptedHistory, TransitionAccepted, ValidParts;
    AcceptedStep(assemblyId, history, i);
    if i > 0 {
      ExecutedSlicesAddUp(assemblyId, history, i - 1);
      AccountedStep(history[i - 1], history[i]);
    }
  }
}
