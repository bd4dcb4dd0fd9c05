/** The checkpoints a controller writes: its moves, the laws every written checkpoint keeps, and
 *  why the history validator accepts whatever the moves produce. */
module ControllerRuns {
  import opened Wrappers
  import opened AssemblyContracts
  import opened AssemblyTransitions
  import opened HistoryValidation
  import opened HistoryLaws
  import opened AuthorityLaws

  /** One appended checkpoint of `submit`'s successor operations. */
  datatype Move =
    | ClaimMove(request: AdvanceRequest)
    | StartMove
    | ExecuteMove(ports: Authorities)
    | ReconcileMove(answer: Outcome)
    | FinishMove

  function ReceiptOf(c: Checkpoint, operationId: Uuid): Option<AdvanceReceipt> {
    ReceiptIn(c.receipts, operationId)
  }

  /** Operation ids of receipts are distinct, so the first match is the only one. */
  function ReceiptIn(receipts: seq<AdvanceReceipt>, operationId: Uuid): (r: Option<AdvanceReceipt>)
    ensures r.Some? ==> r.value in receipts && r.value.operationId == operationId
    ensures r.None? ==> forall i :: 0 <= i < |receipts| ==> receipts[i].operationId != operationId
  {
    if receipts == [] then None
    else if receipts[0].operationId == operationId then Some(receipts[0])
    else ReceiptIn(receipts[1..], operationId)
  }

  /** The checkpoint a move appends to `current`, under the guards `claim_advance` and `advance` put around it. */
  function Next(current: Checkpoint, move: Move): Result<Checkpoint> {
    match move
    case ClaimMove(request) =>
      :- Need(request.requestSha == current.requestSha, Conflict);
      :- Need(ReceiptOf(current, request.operationId).None? && current.active.None?, Conflict);
      Claim(current, request)
    case StartMove =>
      :- Need(current.active.Some? && current.completed < current.active.value.target, Conflict);
      MarkStarted(current)
    case ExecuteMove(ports) =>
      :- Need(current.started.Some?, Conflict);
      ExecuteSlice(current, ports)
    case ReconcileMove(answer) =>
      Reconcile(current, CheckpointRef(current), Some(answer))
    case FinishMove =>
      :- Need(current.active.Some? && current.active.value.target <= current.completed, Conflict);
      :- Need(current.started.None?, Conflict);
      Finish(current)
  }

  /** What arrives from outside is typed: requests are bounded and outcomes satisfy their contract. */
  predicate TypedMove(move: Move) {
    && (move.ClaimMove? ==> ValidAdvanceRequest(move.request))
    && (move.ReconcileMove? ==> ValidOutcome(move.answer))
  }

  // ---------------------------------------------------------------- acceptance, move by move

  /** `current` may stand right after `prior` in an accepted history. */
  predicate Follows(prior: Checkpoint, current: Checkpoint) {
    && ValidCheckpoint(current)
    && ShapeAccepted(current)
    && current.revision == prior.revision + 1
    && current.assemblyId == prior.assemblyId
    && current.request == prior.request
    && current.requestSha == prior.requestSha
    && TransitionAccepted(RecordOf(prior), RecordOf(current))
  }

  /** What acceptance of `prior` by itself provides to the next move. */
  predicate Standing(c: Checkpoint) {
    ValidCheckpoint(c) && ShapeAccepted(c) && Lexicographic(c)
  }

  /** A valid checkpoint with the same progress keeps its shape, if what it marks started is next. */
  lemma RestingShape(prior: Checkpoint, current: Checkpoint)
    requires ShapeAccepted(prior) && ValidCheckpoint(current) && SameAuthority(prior, current)
    requires current.completed == prior.completed && current.last == prior.last
    requires current.started.Some? ==> current.started == SliceFor(prior.completed, prior)
    ensures ShapeAccepted(current)
  {
    hide ValidParts, DistinctReceipts, DistinctOutcomes;
  }

  lemma ClaimFollows(prior: Checkpoint, request: AdvanceRequest, current: Checkpoint)
    requires Standing(prior) && Next(prior, ClaimMove(request)) == Success(current)
    ensures Follows(prior, current)
  {
    hide ValidParts, Lexicographic, ShapeAccepted, DistinctReceipts, DistinctOutcomes, StageSlices, StartAccepted,
      ClearAccepted, FinishAccepted, CompletionAccepted, SliceFor;
    RestingShape(prior, current);
  }

  lemma StartFollows(prior: Checkpoint, current: Checkpoint)
    requires Standing(prior) && Next(prior, StartMove) == Success(current)
    ensures Follows(prior, current)
  {
    hide ValidCheckpoint, Lexicographic, ShapeAccepted, ClaimAccepted, ClearAccepted, FinishAccepted,
      CompletionAccepted, SliceFor;
    RestingShape(prior, current);
  }

  lemma FinishFollows(prior: Checkpoint, current: Checkpoint)
    requires Standing(prior) && Next(prior, FinishMove) == Success(current)
    ensures Follows(prior, current)
  {
    hide ValidCheckpoint, Lexicographic, ShapeAccepted, ClaimAccepted, StartAccepted, ClearAccepted, CompletionAccepted,
      SliceFor;
    RestingShape(prior, current);
  }

  lemma ClearFollows(prior: Checkpoint, answer: Outcome, current: Checkpoint)
    requires Standing(prior) && Next(prior, ReconcileMove(answer)) == Success(current)
    requires answer.disposition == RetryAuthorizedNoEffect
    ensures Follows(prior, current)
    ensures current == prior.(revision := prior.revision + 1, started := None, outcomes := prior.outcomes + [answer])
  {
    hide ValidCheckpoint, Lexicographic, ShapeAccepted, StartAccepted, FinishAccepted, CompletionAccepted,
      CompleteFromReconciliation, SliceFor;
    assert current.outcomes[..|prior.outcomes|] == prior.outcomes;
    assert ClearAccepted(prior, current, CheckpointRef(prior));
    RestingShape(prior, current);
  }

  /** Either no outcome is added, or a terminal one about this very start. */
  predicate ProperAddition(prior: Checkpoint, outcome: Option<Outcome>) {
    outcome.Some? ==>
      && outcome.value.disposition == TerminalReadback
      && Some(outcome.value.scope.startedSlice) == prior.started
      && outcome.value.scope.startedRef == CheckpointRef(prior)
  }

  lemma AdditionAccepted(prior: Checkpoint, current: Checkpoint, outcome: Option<Outcome>)
    requires ProperAddition(prior, outcome)
    requires current.outcomes == prior.outcomes + if outcome.Some? then [outcome.value] else []
    ensures current.outcomes == prior.outcomes
         || OneOutcomeMore(prior, current, CheckpointRef(prior), TerminalReadback)
  {
  }

  lemma InputSliceFollows(
    prior: Checkpoint, index: nat, k: nat, done: ItemState, outcome: Option<Outcome>, current: Checkpoint)
    requires Standing(prior) && prior.started.Some?
    requires index < INPUTS && k < STAGES_PER_INPUT && prior.completed == STAGES_PER_INPUT * index + k
    requires done == WithAllowedChanges(prior.items[index], done, STAGES[k])
    requires ProperAddition(prior, outcome)
    requires AppendSlice(prior, prior.items[index := done], prior.started.value, NO_RESUME, Advancing, outcome)
          == Success(current)
    ensures Follows(prior, current)
  {
    hide ValidParts, Lexicographic, DistinctOutcomes, DistinctReceipts, OneOutcomeMore, RestingAccepted, STAGES;
    assert prior.completed / STAGES_PER_INPUT == index && prior.completed % STAGES_PER_INPUT == k;
    ItemIndexOfOrdinal(prior, index);
    AdditionAccepted(prior, current, outcome);
    assert AuthorityAccepted(prior, current, prior.started.value);
    assert forall i :: 0 <= i < INPUTS ==>
      current.items[i].request == prior.items[i].request && current.items[i].admitted == prior.items[i].admitted;
  }

  lemma ResumeSliceFollows(
    prior: Checkpoint, resume: ResumeChange, status: Status, outcome: Option<Outcome>, current: Checkpoint)
    requires Standing(prior) && prior.started.Some? && INPUT_SLICES <= prior.completed
    requires resume.authorization.Some? <==> prior.completed == INPUT_SLICES
    requires resume.dispatch.Some? <==> prior.completed == INPUT_SLICES + 1
    requires resume.readback.Some? <==> prior.completed == INPUT_SLICES + 2
    requires ProperAddition(prior, outcome)
    requires AppendSlice(prior, prior.items, prior.started.value, resume, status, outcome) == Success(current)
    ensures Follows(prior, current)
  {
    hide ValidParts, DistinctOutcomes, DistinctReceipts, OneOutcomeMore, RestingAccepted;
    AdditionAccepted(prior, current, outcome);
    assert AuthorityAccepted(prior, current, prior.started.value);
  }

  // ---------------------------------------------------------------- the laws of written checkpoints

  /** A receipt that ran its whole allowance. */
  predicate Exhausted(r: AdvanceReceipt) {
    && r.end == TargetOf(r.start, r.maximum)
    && r.executed == r.end - r.start
    && r.status == if r.end == TOTAL_SLICES then ReadyToUse else Advancing
  }

  /** Receipts tile the completed slices, and the active advance starts where they end, under an operation
   *  that has no receipt yet. */
  predicate Tiled(c: Checkpoint) {
    && Covered(c)
    && (forall i :: 0 <= i < |c.receipts| ==> Exhausted(c.receipts[i]))
    && (c.active.Some? ==>
          && c.active.value.target == TargetOf(c.active.value.start, c.active.value.maximum)
          && c.active.value.requestSha == c.requestSha
          && ReceiptOf(c, c.active.value.operationId).None?)
  }

  /** Every recorded outcome is about a record before this one. */
  predicate OutcomesPrecede(c: Checkpoint) {
    forall i :: 0 <= i < |c.outcomes| ==>
      && c.outcomes[i].scope.startedRef.sha256.OfCheckpoint?
      && c.outcomes[i].scope.startedRef.sha256.checkpoint.revision < c.revision
  }

  predicate ItemsLawful(c: Checkpoint) {
    |c.items| == INPUTS && RecoveryControlled(c.items[0]) && forall i :: 0 <= i < INPUTS ==> ItemLawful(c.items[i])
  }

  predicate Lawful(c: Checkpoint) {
    && Standing(c)
    && Tiled(c)
    && OutcomesPrecede(c)
    && ItemsLawful(c)
    && ResumeLawful(c)
  }

  /** The two ways an input slice closes are the same append. */
  lemma ExecuteIsAppend(prior: Checkpoint, ports: Authorities, current: Checkpoint) returns (done: ItemState)
    requires Standing(prior) && prior.started.Some? && prior.completed < INPUT_SLICES
    requires ExecuteSlice(prior, ports) == Success(current)
    ensures var index, k := prior.completed / STAGES_PER_INPUT, prior.completed % STAGES_PER_INPUT;
      && index < INPUTS
      && ExecutedItem(prior.items[index], STAGES[k], index == 0, ports) == Success(done)
      && AppendSlice(prior, prior.items[index := done], prior.started.value, NO_RESUME, Advancing, None)
         == Success(current)
  {
    hide ValidParts, Lexicographic, ExecutedItem, AppendSlice;
    var index, k := prior.completed / STAGES_PER_INPUT, prior.completed % STAGES_PER_INPUT;
    done := ExecutedItem(prior.items[index], STAGES[k], index == 0, ports).value;
  }

  lemma ReconcileIsAppend(prior: Checkpoint, answer: Outcome, current: Checkpoint) returns (done: ItemState)
    requires Standing(prior) && prior.started.Some? && prior.completed < INPUT_SLICES && ValidOutcome(answer)
    requires CompleteFromReconciliation(prior, answer) == Success(current)
    ensures var index, k := prior.completed / STAGES_PER_INPUT, prior.completed % STAGES_PER_INPUT;
      && index < INPUTS
      && ExecutedItem(prior.items[index], STAGES[k], index == 0, answer.authorities) == Success(done)
      && AppendSlice(prior, prior.items[index := done], prior.started.value, NO_RESUME, Advancing, Some(answer))
         == Success(current)
  {
    hide ValidParts, Lexicographic, ReconciledItem, ExecutedItem, AppendSlice;
    var index, k := prior.completed / STAGES_PER_INPUT, prior.completed % STAGES_PER_INPUT;
    ItemIndexOfOrdinal(prior, index);
    ReconciledItemIsExecutedItem(prior.items[index], STAGES[k], index == 0, answer.authorities);
    done := ExecutedItem(prior.items[index], STAGES[k], index == 0, answer.authorities).value;
  }

  /** The resume counterpart: which authority each resume ordinal adds. */
  predicate AddsResume(prior: Checkpoint, resume: ResumeChange, found: Authorities) {
    && (resume.authorization == if prior.completed == INPUT_SLICES then found.resume else None)
    && (resume.dispatch == if prior.completed == INPUT_SLICES + 1 then found.execution else None)
    && (resume.readback == if prior.completed == INPUT_SLICES + 2 then found.execution else None)
    && (prior.completed == INPUT_SLICES ==> resume.authorization.Some?)
    && (prior.completed > INPUT_SLICES ==> found.execution.Some?)
  }

  function ResumeStatus(prior: Checkpoint): Status {
    if prior.completed == TOTAL_SLICES - 1 then ReadyToUse else Advancing
  }

  lemma ExecuteResumeIsAppend(prior: Checkpoint, ports: Authorities, current: Checkpoint) returns (resume: ResumeChange)
    requires Standing(prior) && prior.started.Some? && INPUT_SLICES <= prior.completed
    requires ExecuteSlice(prior, ports) == Success(current)
    ensures AddsResume(prior, resume, ports)
    ensures AppendSlice(prior, prior.items, prior.started.value, resume, ResumeStatus(prior), None) == Success(current)
    ensures ResumeLawful(prior) ==> ResumeLawful(current)
  {
    hide ValidParts, ValidCheckpoint;
    if prior.completed == INPUT_SLICES {
      resume := NO_RESUME.(authorization := ports.resume);
    } else if prior.completed == INPUT_SLICES + 1 {
      resume := NO_RESUME.(dispatch := ports.execution);
    } else {
      resume := NO_RESUME.(readback := ports.execution);
    }
  }

  lemma ReconcileResumeIsAppend(prior: Checkpoint, answer: Outcome, current: Checkpoint) returns (resume: ResumeChange)
    requires Standing(prior) && prior.started.Some? && INPUT_SLICES <= prior.completed
    requires CompleteFromReconciliation(prior, answer) == Success(current)
    ensures AddsResume(prior, resume, answer.authorities)
    ensures AppendSlice(prior, prior.items, prior.started.value, resume, ResumeStatus(prior), Some(answer))
         == Success(current)
    ensures ResumeLawful(prior) ==> ResumeLawful(current)
  {
    hide ValidParts, ValidCheckpoint;
    if prior.completed == INPUT_SLICES {
      resume := NO_RESUME.(authorization := answer.authorities.resume);
    } else if prior.completed == INPUT_SLICES + 1 {
      resume := NO_RESUME.(dispatch := answer.authorities.execution);
    } else {
      resume := NO_RESUME.(readback := answer.authorities.execution);
    }
  }

  // ---------------------------------------------------------------- every move keeps the laws

  /** `_append_slice` with a terminal outcome only ever sees one about the slice it closes. */
  lemma ReconcileAddsProperly(prior: Checkpoint, answer: Outcome, current: Checkpoint)
    requires Next(prior, ReconcileMove(answer)) == Success(current) && answer.disposition == TerminalReadback
    ensures ProperAddition(prior, Some(answer)) && prior.started.Some?
    ensures CompleteFromReconciliation(prior, answer) == Success(current)
  {
    hide CompleteFromReconciliation;
  }

  /** The validator accepts what any move writes after what earlier moves wrote. */
  lemma NextFollows(prior: Checkpoint, move: Move, current: Checkpoint)
    requires Standing(prior) && TypedMove(move) && ItemsLawful(prior)
    requires Next(prior, move) == Success(current)
    ensures Follows(prior, current)
  {
    hide Follows, ValidParts, ValidBinding, ShapeAccepted, AppendSlice, ExecuteSlice, CompleteFromReconciliation,
      ClearForRetry, Claim, Finish, MarkStarted, ExecutedItem, ItemLawful, WithAllowedChanges, STAGES;
    var index, k := prior.completed / STAGES_PER_INPUT, prior.completed % STAGES_PER_INPUT;
    match move {
      case ClaimMove(request) =>
        ClaimFollows(prior, request, current);
      case StartMove =>
        StartFollows(prior, current);
      case FinishMove =>
        FinishFollows(prior, current);
      case ExecuteMove(ports) =>
        if prior.completed < INPUT_SLICES {
          var done := ExecuteIsAppend(prior, ports, current);
          NextStage(prior, index, k);
          ExecutedItemKeepsLaws(prior.items[index], STAGES[k], index == 0, ports, done);
          InputSliceFollows(prior, index, k, done, None, current);
        } else {
          var resume := ExecuteResumeIsAppend(prior, ports, current);
          ResumeWithinBounds(prior);
          ResumeSliceFollows(prior, resume, ResumeStatus(prior), None, current);
        }
      case ReconcileMove(answer) =>
        if answer.disposition == RetryAuthorizedNoEffect {
          ClearFollows(prior, answer, current);
        } else {
          ReconcileAddsProperly(prior, answer, current);
          if prior.completed < INPUT_SLICES {
            var done := ReconcileIsAppend(prior, answer, current);
            NextStage(prior, index, k);
            ExecutedItemKeepsLaws(prior.items[index], STAGES[k], index == 0, answer.authorities, done);
            InputSliceFollows(prior, index, k, done, Some(answer), current);
          } else {
            var resume := ReconcileResumeIsAppend(prior, answer, current);
            ResumeWithinBounds(prior);
            ResumeSliceFollows(prior, resume, ResumeStatus(prior), Some(answer), current);
          }
        }
    }
  }

  /** The next stage of the item being worked on is the one its completed stages do not hold yet. */
  lemma NextStage(c: Checkpoint, index: nat, k: nat)
    requires Standing(c) && index < INPUTS && k < STAGES_PER_INPUT && c.completed == STAGES_PER_INPUT * index + k
    ensures |STAGES| == STAGES_PER_INPUT && |c.items[index].completedStages| == k
  {
    hide ValidParts, ValidBinding, ShapeAccepted;
  }

  lemma ResumeWithinBounds(c: Checkpoint)
    requires Standing(c) && c.started.Some?
    ensures c.completed < TOTAL_SLICES
  {
    hide ValidParts, Lexicographic;
  }

  /** Costs and references only move forward, item by item. */
  predicate ItemsAdvance(prior: Checkpoint, current: Checkpoint) {
    && |prior.items| == INPUTS && |current.items| == INPUTS
    && forall i :: 0 <= i < INPUTS ==> Advances(prior.items[i], current.items[i])
  }

  lemma LawfulItemStands(c: Checkpoint, i: nat)
    requires Standing(c) && ItemsLawful(c) && i < INPUTS
    ensures Advances(c.items[i], c.items[i])
  {
    hide Lexicographic, ShapeAccepted, ValidItem, ValidOutcome, DistinctOutcomes, DistinctReceipts, DistinctInputs;
    assert ItemLawful(c.items[i]) && ValidInputRequest(c.request.inputs[i]);
  }

  lemma InputSliceKeepsItems(
    prior: Checkpoint, index: nat, done: ItemState, outcome: Option<Outcome>, current: Checkpoint)
    requires Standing(prior) && ItemsLawful(prior) && index < INPUTS && prior.completed < INPUT_SLICES
    requires ItemLawful(done) && Advances(prior.items[index], done) && prior.started.Some?
    requires index == 0 ==> RecoveryControlled(done)
    requires AppendSlice(prior, prior.items[index := done], prior.started.value, NO_RESUME, Advancing, outcome)
          == Success(current)
    ensures ItemsLawful(current) && ItemsAdvance(prior, current) && ResumeLawful(current)
  {
    hide ValidParts, ValidBinding, ShapeAccepted, ItemLawful, Advances;
    forall i | 0 <= i < INPUTS
      ensures Advances(prior.items[i], current.items[i])
    {
      LawfulItemStands(prior, i);
    }
  }

  /** Everything but a completion leaves the authorities alone. */
  lemma RestingMoveKeepsAuthority(prior: Checkpoint, move: Move, current: Checkpoint)
    requires Next(prior, move) == Success(current)
    requires !move.ExecuteMove? && (move.ReconcileMove? ==> move.answer.disposition == RetryAuthorizedNoEffect)
    ensures SameAuthority(prior, current)
  {
    hide ValidCheckpoint, SliceFor, CompleteFromReconciliation;
  }

  lemma NextKeepsItems(prior: Checkpoint, move: Move, current: Checkpoint)
    requires Lawful(prior) && TypedMove(move) && Next(prior, move) == Success(current)
    ensures ItemsLawful(current) && ItemsAdvance(prior, current) && ResumeLawful(current)
  {
    hide ValidParts, ValidBinding, ShapeAccepted, AppendSlice, ExecuteSlice, CompleteFromReconciliation,
      ClearForRetry, Claim, Finish, MarkStarted, ExecutedItem, ItemLawful, WithAllowedChanges, Tiled,
      OutcomesPrecede, STAGES, Advances;
    var index, k := prior.completed / STAGES_PER_INPUT, prior.completed % STAGES_PER_INPUT;
    if move.ExecuteMove? || (move.ReconcileMove? && move.answer.disposition == TerminalReadback) {
      var found := if move.ExecuteMove? then move.ports else move.answer.authorities;
      var outcome := if move.ExecuteMove? then None else Some(move.answer);
      if move.ReconcileMove? {
        ReconcileAddsProperly(prior, move.answer, current);
      }
      if prior.completed < INPUT_SLICES {
        var done;
        if move.ExecuteMove? {
          done := ExecuteIsAppend(prior, found, current);
        } else {
          done := ReconcileIsAppend(prior, move.answer, current);
        }
        NextStage(prior, index, k);
        ExecutedItemKeepsLaws(prior.items[index], STAGES[k], index == 0, found, done);
        InputSliceKeepsItems(prior, index, done, outcome, current);
      } else {
        var resume;
        if move.ExecuteMove? {
          resume := ExecuteResumeIsAppend(prior, found, current);
        } else {
          resume := ReconcileResumeIsAppend(prior, move.answer, current);
        }
        ResumeAppendKeepsItems(prior, resume, outcome, current);
      }
    } else {
      RestingMoveKeepsAuthority(prior, move, current);
      forall i | 0 <= i < INPUTS
        ensures Advances(prior.items[i], current.items[i])
      {
        LawfulItemStands(prior, i);
      }
    }
  }

  lemma ResumeAppendKeepsItems(prior: Checkpoint, resume: ResumeChange, outcome: Option<Outcome>, current: Checkpoint)
    requires Standing(prior) && ItemsLawful(prior) && prior.started.Some?
    requires AppendSlice(prior, prior.items, prior.started.value, resume, ResumeStatus(prior), outcome)
          == Success(current)
    ensures ItemsLawful(current) && ItemsAdvance(prior, current)
  {
    hide ValidParts, ValidBinding, ShapeAccepted, ItemLawful, Advances;
    forall i | 0 <= i < INPUTS
      ensures Advances(prior.items[i], current.items[i])
    {
      LawfulItemStands(prior, i);
    }
  }

  /** How a move changes the claim, the receipts and the outcomes. */
  predicate Bookkeeping(prior: Checkpoint, move: Move, current: Checkpoint) {
    && current.requestSha == prior.requestSha
    && current.revision == prior.revision + 1
    && current.outcomes == prior.outcomes + (if move.ReconcileMove? then [move.answer] else [])
    && (move.ReconcileMove? ==> move.answer.scope.startedRef == CheckpointRef(prior))
    && match move
       case ClaimMove(r) =>
         && r.requestSha == prior.requestSha
         && ReceiptOf(prior, r.operationId).None?
         && current.receipts == prior.receipts
         && current.active == Some(ActiveAdvance(r.operationId, r.requestSha, r.maximum, prior.completed,
                                                 TargetOf(prior.completed, r.maximum)))
       case FinishMove =>
         && prior.active.Some?
         && prior.active.value.start <= prior.completed
         && prior.active.value.target <= prior.completed
         && current.receipts == prior.receipts + [ReceiptFor(prior, prior.active.value)]
         && current.active.None?
       case _ => current.receipts == prior.receipts && current.active == prior.active
  }

  lemma ExecuteBookkeeping(prior: Checkpoint, ports: Authorities, current: Checkpoint)
    requires Next(prior, ExecuteMove(ports)) == Success(current)
    ensures Bookkeeping(prior, ExecuteMove(ports), current)
  {
    hide ValidCheckpoint, ExecutedItem, RequireExecution, RequireFreshIdentity, RequireResumeAuthorization,
      RequireStageRequest;
  }

  lemma ReconcileBookkeeping(prior: Checkpoint, answer: Outcome, current: Checkpoint)
    requires Next(prior, ReconcileMove(answer)) == Success(current)
    ensures Bookkeeping(prior, ReconcileMove(answer), current)
  {
    hide ValidCheckpoint, ReconciledItem, RequireExecution, RequireFreshIdentity, RequireResumeAuthorization,
      RequireStageRequest;
  }

  lemma NextBookkeeping(prior: Checkpoint, move: Move, current: Checkpoint)
    requires Next(prior, move) == Success(current)
    ensures Bookkeeping(prior, move, current)
  {
    match move {
      case ExecuteMove(ports) => ExecuteBookkeeping(prior, ports, current);
      case ReconcileMove(answer) => ReconcileBookkeeping(prior, answer, current);
      case _ =>
        hide ValidCheckpoint, SliceFor;
    }
  }

  lemma TilingStep(prior: Checkpoint, move: Move, current: Checkpoint)
    requires Tiled(prior) && OutcomesPrecede(prior) && Covered(current) && Bookkeeping(prior, move, current)
    requires ValidBinding(prior)
    ensures Tiled(current) && OutcomesPrecede(current)
  {
    hide Covered, DistinctReceipts, DistinctOutcomes, StageSlices;
  }

  lemma NextKeepsTiling(prior: Checkpoint, move: Move, current: Checkpoint)
    requires Lawful(prior) && Follows(prior, current) && Next(prior, move) == Success(current)
    ensures Tiled(current) && OutcomesPrecede(current)
  {
    hide Next, Bookkeeping, TransitionAccepted, ValidParts, ValidBinding, Lexicographic, ShapeAccepted, Covered,
      ItemsLawful, ResumeLawful, OutcomesPrecede;
    NextBookkeeping(prior, move, current);
    CoveredStep(RecordOf(prior), RecordOf(current));
    TilingStep(prior, move, current);
  }

  /** The main preservation result: whatever a move appends to a lawful checkpoint is lawful, is
   *  accepted by the validator right after it, and rewinds no cost and no reference. */
  lemma NextKeepsLaws(prior: Checkpoint, move: Move, current: Checkpoint)
    requires Lawful(prior) && TypedMove(move) && Next(prior, move) == Success(current)
    ensures Lawful(current) && Follows(prior, current) && ItemsAdvance(prior, current)
  {
    NextFollows(prior, move, current);
    NextKeepsItems(prior, move, current);
    NextKeepsTiling(prior, move, current);
    LexicographicStep(RecordOf(prior), RecordOf(current));
    hide Next, TransitionAccepted, ValidCheckpoint, ShapeAccepted, Lexicographic, Tiled, ItemsLawful, ResumeLawful;
  }
}
