/** Crash recovery refines uninterrupted execution: closing a started slice from a recorded terminal
 *  result writes what executing the slice would have written, apart from the outcome it records. */
module RecoveryRefinement {
  import opened Wrappers
  import opened AssemblyContracts
  import opened AssemblyTransitions
  import opened HistoryValidation
  import opened HistoryLaws
  import opened AuthorityLaws
  import opened ControllerRuns

  function Erase(c: Checkpoint): Checkpoint {
    c.(outcomes := [])
  }

  function EraseResult(r: Result<Checkpoint>): Result<Checkpoint> {
    if r.Success? then Success(Erase(r.value)) else r
  }

  /** Both fail, or both succeed with the same value. */
  predicate Agree<T(==)>(a: Result<T>, b: Result<T>) {
    (a.Success? <==> b.Success?) && (a.Success? ==> a == b)
  }

  /** The outcomes by themselves satisfy what a checkpoint of this assembly demands of them. */
  predicate OutcomesFit(c: Checkpoint, outcomes: seq<Outcome>) {
    && (forall i :: 0 <= i < |outcomes| ==>
          && ValidOutcome(outcomes[i])
          && outcomes[i].scope.assemblyId == c.assemblyId
          && outcomes[i].scope.requestSha == c.requestSha)
    && DistinctOutcomes(outcomes)
  }

  lemma ErasedValidity(c: Checkpoint)
    requires OutcomesFit(c, c.outcomes)
    ensures ValidCheckpoint(c) <==> ValidCheckpoint(Erase(c))
  {
    hide ValidSubmit, ValidItem, ValidOutcome, ValidActive, ValidReceipt, DistinctReceipts;
  }

  /** An answer about this very start, which no recorded outcome clashes with. */
  lemma FreshAnswerFits(c: Checkpoint, answer: Outcome)
    requires ValidCheckpoint(c) && OutcomesPrecede(c) && ValidOutcome(answer)
    requires answer.disposition == TerminalReadback
    requires ScopeOf(c, CheckpointRef(c)) == Success(answer.scope)
    ensures OutcomesFit(c, c.outcomes) && OutcomesFit(c, c.outcomes + [answer])
  {
    hide ValidOutcome, ValidSubmit, ValidItem, ValidActive, ValidReceipt, DistinctReceipts, StageSlices, ResumeCount;
    assert answer.retry.None? by { TerminalHasNoRetry(answer); }
    forall i | 0 <= i < |c.outcomes|
      ensures !OutcomesClash(c.outcomes[i], answer)
    {
      assert c.outcomes[i].scope.startedRef.sha256 != OfCheckpoint(c);
    }
  }

  lemma TerminalHasNoRetry(answer: Outcome)
    requires ValidOutcome(answer) && answer.disposition == TerminalReadback
    ensures answer.retry.None?
  {
  }

  lemma AppendErased(
    c: Checkpoint, items: seq<ItemState>, slice: Slice, resume: ResumeChange, status: Status, outcome: Option<Outcome>)
    requires OutcomesFit(c, c.outcomes + if outcome.Some? then [outcome.value] else [])
    ensures AppendSlice(Erase(c), items, slice, resume, status, None)
         == EraseResult(AppendSlice(c, items, slice, resume, status, outcome))
  {
    hide ValidCheckpoint, OutcomesFit;
    var next := c.(
      revision := c.revision + 1, status := status, completed := c.completed + 1, items := items,
      resumeAuthorization := Either(resume.authorization, c.resumeAuthorization),
      resumeDispatch := Either(resume.dispatch, c.resumeDispatch),
      resumeReadback := Either(resume.readback, c.resumeReadback),
      last := Some(slice), started := None,
      outcomes := c.outcomes + if outcome.Some? then [outcome.value] else []);
    FitsNext(c, next);
    ErasedValidity(next);
    var none: seq<Outcome> := [];
    assert none + none == none;
  }

  lemma FitsNext(c: Checkpoint, next: Checkpoint)
    requires OutcomesFit(c, next.outcomes)
    requires next.assemblyId == c.assemblyId && next.requestSha == c.requestSha
    ensures OutcomesFit(next, next.outcomes)
  {
  }

  /** Executing a slice never looks at the recorded outcomes. */
  lemma ExecuteErased(c: Checkpoint, ports: Authorities)
    requires Lawful(c)
    ensures Next(Erase(c), ExecuteMove(ports)) == EraseResult(Next(c, ExecuteMove(ports)))
  {
    hide AppendSlice, ValidCheckpoint, ShapeAccepted, Lexicographic, Tiled, ItemsLawful, ResumeLawful, ExecutedItem,
      OutcomesPrecede, OutcomesFit, RequireExecution, RequireFreshIdentity, RequireResumeAuthorization;
    LawfulOutcomesFit(c);
    assert c.outcomes + [] == c.outcomes;
    forall items, slice, resume, status
      ensures AppendSlice(Erase(c), items, slice, resume, status, None)
           == EraseResult(AppendSlice(c, items, slice, resume, status, None))
    {
      AppendErased(c, items, slice, resume, status, None);
    }
  }

  lemma LawfulOutcomesFit(c: Checkpoint)
    requires ValidCheckpoint(c)
    ensures OutcomesFit(c, c.outcomes)
  {
    hide ValidOutcome, ValidSubmit, ValidItem, ValidActive, ValidReceipt, DistinctReceipts, StageSlices, ResumeCount,
      DistinctOutcomes;
  }

  /** The started slice of a standing checkpoint is the one its progress calls for. */
  lemma StartedSlice(c: Checkpoint)
    requires Standing(c) && c.started.Some?
    ensures c.completed < TOTAL_SLICES && c.started == SliceFor(c.completed, c)
    ensures |c.items| == INPUTS && c.active.Some?
  {
    hide ValidParts, Lexicographic;
  }

  lemma BenchmarkIsBusiness(answer: Outcome)
    requires ValidOutcome(answer)
    ensures answer.authorities.benchmark.Some? ==> answer.authorities.benchmark.value.business
  {
  }

  lemma ReconcileInputErased(c: Checkpoint, answer: Outcome)
    requires Standing(c) && c.started.Some? && c.completed < INPUT_SLICES && ValidOutcome(answer)
    requires OutcomesFit(c, c.outcomes + [answer])
    ensures EraseResult(CompleteFromReconciliation(c, answer)) == ExecuteSlice(Erase(c), answer.authorities)
  {
    hide AppendSlice, ValidCheckpoint, ValidOutcome, ShapeAccepted, Lexicographic, ExecutedItem, ReconciledItem,
      OutcomesFit;
    var index, k := c.completed / STAGES_PER_INPUT, c.completed % STAGES_PER_INPUT;
    StartedSlice(c);
    ItemIndexOfOrdinal(c, index);
    BenchmarkIsBusiness(answer);
    ReconciledItemIsExecutedItem(c.items[index], STAGES[k], index == 0, answer.authorities);
    var done := ExecutedItem(c.items[index], STAGES[k], index == 0, answer.authorities);
    if done.Success? {
      AppendErased(c, c.items[index := done.value], c.started.value, NO_RESUME, Advancing, Some(answer));
    }
  }

  lemma ReconcileResumeErased(c: Checkpoint, answer: Outcome)
    requires Standing(c) && c.started.Some? && INPUT_SLICES <= c.completed
    requires ItemsLawful(c) && OutcomesFit(c, c.outcomes + [answer])
    ensures Agree(EraseResult(CompleteFromReconciliation(c, answer)), ExecuteSlice(Erase(c), answer.authorities))
  {
    hide AppendSlice, ValidCheckpoint, ShapeAccepted, Lexicographic, ItemsLawful, OutcomesFit, RequireFreshIdentity,
      RequireResumeAuthorization;
    StartedSlice(c);
    FinishedItemHasEvidence(c);
    var found, started := answer.authorities, c.started.value;
    if c.completed == INPUT_SLICES {
      AppendErased(c, c.items, started, NO_RESUME.(authorization := found.resume), Advancing, Some(answer));
    } else if c.completed == INPUT_SLICES + 1 {
      AppendErased(c, c.items, started, NO_RESUME.(dispatch := found.execution), Advancing, Some(answer));
    } else {
      AppendErased(c, c.items, started, NO_RESUME.(readback := found.execution), ReadyToUse, Some(answer));
    }
  }

  /** Once all input slices are done, the first capability names its original execution. */
  lemma FinishedItemHasEvidence(c: Checkpoint)
    requires Standing(c) && ItemsLawful(c) && INPUT_SLICES <= c.completed
    ensures |c.items| == INPUTS && c.items[0].evidence.Some?
    ensures c.items[0].evidence.value.commandId.Some? && c.items[0].evidence.value.resultId.Some?
    ensures c.completed > INPUT_SLICES ==> c.resumeAuthorization.Some?
  {
    hide ValidCheckpoint, ItemLawful, DistinctSources, SliceFor;
    assert |c.items[0].completedStages| == STAGES_PER_INPUT;
    assert ItemLawful(c.items[0]);
    EvidencePresent(c.items[0]);
  }

  lemma EvidencePresent(item: ItemState)
    requires ItemLawful(item) && |item.completedStages| == STAGES_PER_INPUT
    ensures item.evidence.Some? && item.evidence.value.commandId.Some? && item.evidence.value.resultId.Some?
  {
  }

  lemma StandingIsValid(c: Checkpoint)
    requires Standing(c)
    ensures ValidCheckpoint(c)
  {
  }

  /** Reconciling a started slice agrees with executing it, once the recorded outcome is erased. */
  lemma ReconcileErased(c: Checkpoint, answer: Outcome)
    requires Lawful(c) && ValidOutcome(answer) && answer.disposition == TerminalReadback
    requires ScopeOf(c, CheckpointRef(c)) == Success(answer.scope)
    ensures Agree(EraseResult(Next(c, ReconcileMove(answer))), Next(Erase(c), ExecuteMove(answer.authorities)))
  {
    hide ExecuteSlice, CompleteFromReconciliation, Standing, Tiled, ItemsLawful, ResumeLawful, OutcomesFit,
      OutcomesPrecede, ValidOutcome;
    assert ValidCheckpoint(c) by { StandingIsValid(c); }
    FreshAnswerFits(c, answer);
    if c.completed < INPUT_SLICES {
      ReconcileInputErased(c, answer);
    } else {
      ReconcileResumeErased(c, answer);
    }
  }

  /** Recovery and direct execution of one slice, on the checkpoints as written. */
  lemma RecoveryRefinesExecution(c: Checkpoint, answer: Outcome)
    requires Lawful(c) && ValidOutcome(answer) && answer.disposition == TerminalReadback
    requires ScopeOf(c, CheckpointRef(c)) == Success(answer.scope)
    ensures Next(c, ReconcileMove(answer)).Success? <==> Next(c, ExecuteMove(answer.authorities)).Success?
    ensures Next(c, ReconcileMove(answer)).Success? ==>
      Next(c, ReconcileMove(answer)).value
      == Next(c, ExecuteMove(answer.authorities)).value.(outcomes := c.outcomes + [answer])
  {
    hide Next, Lawful, ValidOutcome, Bookkeeping;
    ReconcileErased(c, answer);
    ExecuteErased(c, answer.authorities);
    var recovered, executed := Next(c, ReconcileMove(answer)), Next(c, ExecuteMove(answer.authorities));
    if recovered.Success? {
      NextBookkeeping(c, ReconcileMove(answer), recovered.value);
      RecoveredOutcomes(c, answer, recovered.value);
    }
  }

  lemma RecoveredOutcomes(c: Checkpoint, answer: Outcome, next: Checkpoint)
    requires Bookkeeping(c, ReconcileMove(answer), next)
    ensures next.outcomes == c.outcomes + [answer]
  {
  }

  // ---------------------------------------------------------------- whole runs

  /** The checkpoints a sequence of moves appends. */
  function Run(c: Checkpoint, moves: seq<Move>): Result<seq<Checkpoint>>
    decreases |moves|
  {
    if moves == [] then Success([])
    else
      var next :- Next(c, moves[0]);
      var rest :- Run(next, moves[1..]);
      Success([next] + rest)
  }

  /** The move an uninterrupted controller makes where this one may have recovered from a crash. */
  function Uninterrupted(move: Move): Move {
    if move.ReconcileMove? then ExecuteMove(move.answer.authorities) else move
  }

  function UninterruptedAll(moves: seq<Move>): seq<Move> {
    if moves == [] then [] else [Uninterrupted(moves[0])] + UninterruptedAll(moves[1..])
  }

  function EraseAll(checkpoints: seq<Checkpoint>): seq<Checkpoint> {
    if checkpoints == [] then [] else [Erase(checkpoints[0])] + EraseAll(checkpoints[1..])
  }

  function EraseRun(r: Result<seq<Checkpoint>>): Result<seq<Checkpoint>> {
    if r.Success? then Success(EraseAll(r.value)) else r
  }

  /** Every reconciliation of the run is a terminal readback of the very slice it closes. */
  predicate ReadsBackOnly(c: Checkpoint, moves: seq<Move>)
    decreases |moves|
  {
    moves == []
    || (&& TypedMove(moves[0])
        && (moves[0].ReconcileMove? ==>
              && moves[0].answer.disposition == TerminalReadback
              && ScopeOf(c, CheckpointRef(c)) == Success(moves[0].answer.scope))
        && (Next(c, moves[0]).Success? ==> ReadsBackOnly(Next(c, moves[0]).value, moves[1..])))
  }

  /** Validation of a checkpoint that keeps the outcomes of `c` ignores them. */
  lemma KeptOutcomesErased(c: Checkpoint, next: Checkpoint)
    requires ValidCheckpoint(c)
    requires next.outcomes == c.outcomes && next.assemblyId == c.assemblyId && next.requestSha == c.requestSha
    ensures ValidatedCheckpoint(Erase(next)) == EraseResult(ValidatedCheckpoint(next))
  {
    hide ValidCheckpoint, OutcomesFit;
    LawfulOutcomesFit(c);
    FitsNext(c, next);
    ErasedValidity(next);
  }

  /** A move that is neither completion nor clear treats a checkpoint and its erasure alike. */
  lemma BookkeepingErased(c: Checkpoint, move: Move)
    requires ValidCheckpoint(c) && !move.ExecuteMove? && !move.ReconcileMove?
    ensures Next(Erase(c), move) == EraseResult(Next(c, move))
  {
    hide ValidCheckpoint, ValidatedCheckpoint, SliceFor;
    match move {
      case ClaimMove(request) =>
        KeptOutcomesErased(c, c.(
          revision := c.revision + 1, status := RestingStatus(c),
          active := Some(ActiveAdvance(request.operationId, request.requestSha, request.maximum, c.completed,
                                       TargetOf(c.completed, request.maximum)))));
      case StartMove =>
        SliceForErased(c);
        KeptOutcomesErased(c, c.(revision := c.revision + 1, started := SliceFor(c.completed, c)));
      case FinishMove =>
        if c.active.Some? && c.active.value.start <= c.completed {
          KeptOutcomesErased(c, c.(
            revision := c.revision + 1, status := RestingStatus(c), active := None,
            receipts := c.receipts + [ReceiptFor(c, c.active.value)]));
        }
    }
  }

  lemma SliceForErased(c: Checkpoint)
    ensures SliceFor(c.completed, Erase(c)) == SliceFor(c.completed, c)
  {
  }

  lemma MoveErased(c: Checkpoint, move: Move)
    requires Lawful(c) && TypedMove(move)
    requires move.ReconcileMove? ==>
      move.answer.disposition == TerminalReadback && ScopeOf(c, CheckpointRef(c)) == Success(move.answer.scope)
    ensures Agree(EraseResult(Next(c, move)), Next(Erase(c), Uninterrupted(move)))
  {
    hide Next, Tiled, ItemsLawful, ResumeLawful, OutcomesPrecede, Lexicographic, ShapeAccepted, ValidCheckpoint;
    match move {
      case ReconcileMove(answer) => ReconcileErased(c, answer);
      case ExecuteMove(ports) => ExecuteErased(c, ports);
      case _ => BookkeepingErased(c, move);
    }
  }

  /** A run with crashes and readbacks writes, up to recorded outcomes, what the uninterrupted run writes. */
  lemma {:induction false} RecoveredRunIsUninterruptedRun(c: Checkpoint, moves: seq<Move>)
    requires Lawful(c) && ReadsBackOnly(c, moves)
    ensures Agree(EraseRun(Run(c, moves)), Run(Erase(c), UninterruptedAll(moves)))
    decreases |moves|
  {
    hide Next, Lawful, Follows, ItemsAdvance;
    if moves != [] {
      var move, rest := moves[0], UninterruptedAll(moves[1..]);
      MoveErased(c, move);
      assert UninterruptedAll(moves)[0] == Uninterrupted(move) && UninterruptedAll(moves)[1..] == rest;
      if Next(c, move).Success? {
        var next := Next(c, move).value;
        NextKeepsLaws(c, move, next);
        RecoveredRunIsUninterruptedRun(next, moves[1..]);
        if Run(next, moves[1..]).Success? {
          var tail := Run(next, moves[1..]).value;
          assert EraseAll([next] + tail) == [Erase(next)] + EraseAll(tail);
        }
      }
    }
  }
}
