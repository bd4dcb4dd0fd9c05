/** The controller object: one process's calls against the repository, with ports that answer anything. */
module AssemblyController {
  import opened Wrappers
  import opened AssemblyContracts
  import opened AssemblyTransitions
  import opened HistoryValidation
  import opened AuthorityLaws
  import opened ControllerRuns
  import opened AssemblyRepository
  import opened AssemblyProtocol
  import opened ProtocolSafety
  import AnswerAcceptance
  import opened ControllerAnswers

  class Controller {
    const repository: Repository
    const production: bool
    const admission: InputRequest -> Result<AdmittedInput>
    const ports: Checkpoint -> Result<Authorities>
    const answers: ReconciliationRequest -> Result<Option<Outcome>>

    ghost predicate Valid()
      reads repository
    {
      repository.Valid() && Good(repository.State())
    }

    ghost function Current(a: Uuid): Option<Checkpoint>
      reads repository
    {
      Latest(repository.State(), a)
    }

    constructor (repository: Repository, production: bool, admission: InputRequest -> Result<AdmittedInput>,
                 ports: Checkpoint -> Result<Authorities>, answers: ReconciliationRequest -> Result<Option<Outcome>>)
      requires repository.Valid() && Good(repository.State())
      ensures Valid() && this.repository == repository && this.production == production
      ensures this.admission == admission && this.ports == ports && this.answers == answers
    {
      this.repository, this.production := repository, production;
      this.admission, this.ports, this.answers := admission, ports, answers;
    }

    /** Read the history back; what controllers wrote is never refused. */
    method Projection(a: Uuid) returns (result: Result<Checkpoint>)
      requires Valid()
      ensures result == if Current(a).Some? then Success(Current(a).value) else Failure(NotFound)
    {
      hide Good, RowsSound, Latest, AcceptedHistory, Decoded;
      GoodRows(repository.State());
      var history := repository.ReadHistory(a);
      if history == [] {
        NoHead(repository.State(), a);
        return Failure(NotFound);
      }
      HistoryHasLatest(repository.State(), a);
      ChronicleAccepted(repository.State(), a);
      var accepted := ValidateHistory(a, history);
      return if accepted then Success(history[|history| - 1].checkpoint) else Failure(Conflict);
    }

    /** Admit an assembly once; repeating the same submission returns what is stored. */
    method Submit(request: SubmitRequest) returns (result: Result<Checkpoint>)
      requires Valid() && ValidSubmit(request)
      modifies repository
      ensures Valid() && Extended(old(repository.State()), repository.State(), request.assemblyId)
      ensures SubmittedAs(old(repository.State()), request, admission, result)
      ensures result.Failure? || old(Current(request.assemblyId)).Some? ==>
        repository.State() == old(repository.State())
      ensures result == SubmitAnswer(old(repository.State()), request, AdmittedBy(admission, request.inputs))
      ensures repository.State()
           == SubmitTables(old(repository.State()), request, AdmittedBy(admission, request.inputs))
      ensures result.Success? ==> Current(request.assemblyId) == Some(result.value) && result.value.request == request
    {
      hide Good, Latest, Extended, RowsSound, Written, ValidCheckpoint, Admission, KeyTaken, Sound, SubmittedAs;
      GoodRows(repository.State());
      SubmissionIsDecided(repository.State(), request, admission);
      var digest := OfRequest(request);
      var existing := Projection(request.assemblyId);
      var byKey := repository.FindByIdempotencyKey(request.idempotencyKey);
      if existing.Success? {
        var latest := existing.value;
        return if latest.requestSha != digest || latest.request != request then Failure(Conflict) else Success(latest);
      }
      NoLatest(repository.State(), request.assemblyId);
      if byKey.Some? {
        var checkpoint := byKey.value.checkpoint;
        return if checkpoint.assemblyId != request.assemblyId || checkpoint.request != request then Failure(Conflict)
               else Success(checkpoint);
      }
      var admitted := AdmittedBy(admission, request.inputs);
      if admitted.Failure? {
        return Failure(admitted.error);
      }
      result := Admission(request, admitted.value);
      if result.Success? {
        SubmissionFits(repository.State(), request, admitted.value, result.value);
        var written := repository.Append(result.value, 0);
      }
    }

    /** `_append`, which no other writer disturbs here. */
    method Append(c: Checkpoint, expected: nat, ghost current: Checkpoint, ghost move: Move)
      requires Valid() && Current(current.assemblyId) == Some(current) && expected == current.revision
      requires TypedMove(move) && ConsumedBy(move).None? && Next(current, move) == Success(c)
      modifies repository
      ensures Valid() && repository.State() == Written(old(repository.State()), c, None)
      ensures c.assemblyId == current.assemblyId && Current(c.assemblyId) == Some(c)
      ensures Extended(old(repository.State()), repository.State(), c.assemblyId)
    {
      hide Good, Next, Latest, Writable, Written, Extended, ValidCheckpoint, Lawful, TypedMove, Sound;
      NextIsWritable(repository.State(), current, move, c);
      CommitIsGood(repository.State(), current, move, c);
      var written := repository.Append(c, expected);
    }

    /** Mark the next slice started, before its effect: exactly when an advance is active, has slices left
     *  and none of them is started. */
    method MarkNextSliceStarted(current: Checkpoint) returns (result: Result<Checkpoint>)
      requires Valid() && Current(current.assemblyId) == Some(current)
      modifies repository
      ensures Valid()
      ensures result == if current.started.Some? then Failure(Incomplete)
                        else if current.active.None? then Failure(Conflict)
                        else if current.active.value.target <= current.completed then Failure(Malformed)
                        else Success(current.(revision := current.revision + 1,
                                              started := SliceFor(current.completed, current)))
      ensures result.Success? ==> result == Next(current, StartMove)
      ensures result.Success? ==> Current(current.assemblyId) == Some(result.value)
      ensures repository.State() == if result.Success? then Written(old(repository.State()), result.value, None)
                                    else old(repository.State())
      ensures Extended(old(repository.State()), repository.State(), current.assemblyId)
    {
      hide Good, Latest, Written, Extended, ValidCheckpoint, SliceFor, Lawful;
      GoodRows(repository.State());
      LatestIsLawful(repository.State(), current.assemblyId);
      StartDecided(current);
      result := MarkStarted(current);
      if result.Success? {
        Append(result.value, current.revision, current, StartMove);
      }
    }

    /** Record one readback; a write-once table may refuse it. */
    method RecordReadback(which: ReadbackTable, outcome: Outcome, ghost a: Uuid) returns (done: Check)
      requires Valid() && ValidOutcome(outcome) && outcome.disposition == TerminalReadback
      modifies repository
      ensures Valid() && Current(a) == old(Current(a))
      ensures Extended(old(repository.State()), repository.State(), a)
      ensures done == if old(Recordable(repository.State(), which, outcome.scope, outcome)) then Pass
                      else Refuse(Conflict)
      ensures repository.State() == if done.Pass?
                                    then AssemblyRepository.Recorded(old(repository.State()), which, outcome)
                                    else old(repository.State())
    {
      hide Good, Latest, ValidOutcome, Extended, Recordable, RowsSound, AssemblyRepository.Recorded;
      GoodRows(repository.State());
      RecordIsGood(repository.State(), which, outcome, a);
      done := repository.RecordReadback(which, outcome.scope, outcome);
    }

    /** The adapter of a production input slice files its receipt before the answer is returned. */
    method FileReceipt(current: Checkpoint, scope: ReconciliationRequest, answer: Authorities) returns (filed: Check)
      requires Valid() && StartScope(current) == Success(scope)
      modifies repository
      ensures Valid() && Current(current.assemblyId) == old(Current(current.assemblyId))
      ensures Extended(old(repository.State()), repository.State(), current.assemblyId)
      ensures var filing := Filing(old(repository.State()), scope, answer);
        && filed == (if filing.Success? then Pass else Refuse(filing.error))
        && repository.State() == if filing.Success? then filing.value else old(repository.State())
    {
      hide Good, Latest, ValidOutcome, Extended, Recordable, RowsSound, AssemblyRepository.Recorded, EffectOutcome,
        FieldPresent, StartScope;
      GoodRows(repository.State());
      var receipt := EffectOutcome(scope, answer);
      EffectIsTerminal(scope, answer);
      if !FieldPresent(scope.startedSlice.kind, answer) {
        return Refuse(Unavailable);
      }
      if !ValidOutcome(receipt) {
        return Refuse(Malformed);
      }
      filed := RecordReadback(EffectReceipts, receipt, current.assemblyId);
    }

    /** `_record_terminal_readback`, which the production reconciliation offers. */
    method RecordTerminal(current: Checkpoint, scope: ReconciliationRequest, done: Checkpoint) returns (recorded: Check)
      requires Valid()
      modifies repository
      ensures Valid() && Current(current.assemblyId) == old(Current(current.assemblyId))
      ensures Extended(old(repository.State()), repository.State(), current.assemblyId)
      ensures var terminal := Terminal(old(repository.State()), scope, done);
        && recorded == (if terminal.Success? then Pass else Refuse(terminal.error))
        && repository.State() == if terminal.Success? then terminal.value else old(repository.State())
    {
      hide Good, Latest, ValidOutcome, Extended, Recordable, RowsSound, AssemblyRepository.Recorded, TerminalOutcome;
      GoodRows(repository.State());
      var terminal := TerminalOutcome(scope, done);
      TerminalIsTerminal(scope, done);
      if !ValidOutcome(terminal) {
        return Refuse(Malformed);
      }
      recorded := RecordReadback(TerminalReadbacks, terminal, current.assemblyId);
    }

    /** Call the port of the started slice, record its result ahead in production, and close the slice. The
     *  checks before the port pass on every checkpoint that controllers write. */
    method ExecuteNextSlice(current: Checkpoint) returns (result: Result<Checkpoint>)
      requires Valid() && Current(current.assemblyId) == Some(current) && current.started.Some?
      modifies repository
      ensures Valid() && Extended(old(repository.State()), repository.State(), current.assemblyId)
      ensures ports(current).Failure? ==>
        result == Failure(ports(current).error) && repository.State() == old(repository.State())
      ensures ports(current).Success? && ValidAuthorities(ports(current).value)
              && (production ==> Unspent(old(repository.State()), current)) ==>
        && (result.Success? <==> AnswerAcceptance.AcceptableAnswer(current, ports(current).value))
        && (result.Success? ==> result.value == AnswerAcceptance.Closed(current, ports(current).value))
      ensures result.Success? && production ==> DurableResult(repository.State(), current, result.value)
      ensures Current(current.assemblyId) == Some(if result.Success? then result.value else current)
      ensures (repository.State(), result) == Execution(old(repository.State()), current, ports(current), production)
    {
      hide Good, Latest, Next, Extended, RowsSound, StartScope, Written, Filing, Terminal, Lawful, DurableResult,
        ValidAuthorities, Unspent, AnswerAcceptance.AcceptableAnswer, AnswerAcceptance.Closed;
      ExecutionIsDurable(repository.State(), current, ports(current));
      ExecutionIsDecided(repository.State(), current, ports(current), production);
      ghost var before := repository.State();
      ghost var a := current.assemblyId;
      GoodRows(before);
      StartedIsCallable(before, current);
      var scope := StartScope(current).value;
      var answer := ports(current);
      if answer.Failure? {
        return Failure(answer.error);
      }
      if production && current.completed < INPUT_SLICES {
        var filed := FileReceipt(current, scope, answer.value);
        if filed.Refuse? {
          return Failure(filed.error);
        }
      }
      ghost var called := repository.State();
      result := Next(current, ExecuteMove(answer.value));
      if result.Failure? {
        return;
      }
      if production {
        var recorded := RecordTerminal(current, scope, result.value);
        ExtendedOn(before, called, repository.State(), a);
        if recorded.Refuse? {
          return Failure(recorded.error);
        }
      }
      ghost var recorded := repository.State();
      Append(result.value, current.revision, current, ExecuteMove(answer.value));
      ExtendedOn(before, recorded, repository.State(), a);
    }

    /** Settle a started slice that an earlier call left behind: replay its result, or clear it under a
     *  retry receipt that is consumed in the same transaction. */
    method ReconcileStartedSlice(current: Checkpoint) returns (result: Result<Checkpoint>)
      requires Valid() && Current(current.assemblyId) == Some(current) && current.started.Some?
      modifies repository
      ensures Valid() && Extended(old(repository.State()), repository.State(), current.assemblyId)
      ensures current.active.Some? && (result.Failure? ==> repository.State() == old(repository.State()))
      ensures var t, scope := old(repository.State()), AnswerAcceptance.StartedScope(current);
        var found := if production then ReconcileAnswer(t, scope) else answers(scope);
        if found.Failure? then result == Failure(found.error)
        else if found.value.None? then result == Failure(Incomplete)
        else if !ValidOutcome(found.value.value) then result == Failure(Malformed)
        else
          && SettlesBy(t, current, found.value.value, result)
          && (result.Success? && found.value.value.retry.Some? ==>
                var receipt := found.value.value.retry.value;
                && receipt.receiptId in repository.State().retries
                && repository.State().retries[receipt.receiptId].authorization == receipt)
      ensures (repository.State(), result)
           == Settlement(old(repository.State()), current, Found(old(repository.State()), current, answers, production))
      ensures Current(current.assemblyId) == Some(if result.Success? then result.value else current)
    {
      hide Good, Latest, ValidOutcome, Extended, RowsSound, Written, Next, ReconcileAnswer, ValidCheckpoint, Sound,
        ConsumedBy, Writable, Lawful, RetryTaken, StartScope, SettlesBy;
      ghost var before := repository.State();
      GoodRows(before);
      StartedIsCallable(before, current);
      SettlementIsDecided(before, current, answers, production);
      var scope := StartScope(current).value;
      var found: Result<Option<Outcome>>;
      if production {
        found := repository.Reconcile(scope);
      } else {
        found := answers(scope);
      }
      if found.Failure? {
        return Failure(found.error);
      }
      if found.value.None? {
        return Failure(Incomplete);
      }
      var outcome := found.value.value;
      if !ValidOutcome(outcome) {
        return Failure(Malformed);
      }
      if outcome.scope != scope {
        return Failure(Conflict);
      }
      var move := ReconcileMove(outcome);
      result := Next(current, move);
      if result.Success? {
        if ConsumedBy(move).Some? {
          var c, authorization := result.value, ConsumedBy(move).value;
          SettledIsValid(before, current, move, c);
          RetryDecides(before, current, move, c);
          var written := repository.ConsumeRetryAuthorizationAndAppend(c, authorization, current.revision);
          if written.Failure? {
            result := Failure(Conflict);
          } else {
            CommitIsGood(before, current, move, c);
          }
        } else {
          SettledIsValid(before, current, move, result.value);
          Append(result.value, current.revision, current, move);
        }
      }
    }

    /** Take or resume the one active advance of an assembly. */
    method ClaimAdvance(request: AdvanceRequest) returns (result: Result<Checkpoint>)
      requires Valid() && ValidAdvanceRequest(request)
      modifies repository
      ensures Valid() && Extended(old(repository.State()), repository.State(), request.assemblyId)
      ensures ClaimedAs(old(Current(request.assemblyId)), request, result)
      ensures result.Failure? || old(Current(request.assemblyId)) == Some(result.value) ==>
        repository.State() == old(repository.State())
      ensures result == ClaimAnswer(old(Current(request.assemblyId)), request)
      ensures repository.State() == ClaimTables(old(repository.State()), request)
      ensures result.Success? ==> Current(request.assemblyId) == Some(result.value)
    {
      hide Good, Latest, Extended, RowsSound, Written, ValidCheckpoint, Lawful, ClaimedAs;
      GoodRows(repository.State());
      ClaimAnswered(repository.State(), request);
      var found := Projection(request.assemblyId);
      if found.Failure? {
        return found;
      }
      var current := found.value;
      LatestIsLawful(repository.State(), request.assemblyId);
      if current.requestSha != request.requestSha || OtherActive(current, request) {
        return Failure(Conflict);
      }
      var replay := ReceiptOf(current, request.operationId);
      if replay.Some? {
        return if ReceiptMatches(replay.value, request) then Success(current) else Failure(Conflict);
      }
      if current.active.Some? {
        return if ActiveMatches(current.active.value, request) then Success(current) else Failure(Conflict);
      }
      ClaimSucceeds(current, request);
      result := Claim(current, request);
      Append(result.value, current.revision, current, ClaimMove(request));
    }

    /** The loop of `advance`: start and execute slices until the active advance reaches its target. */
    method RunSlices(begun: Checkpoint) returns (result: Result<Checkpoint>)
      requires Valid() && Current(begun.assemblyId) == Some(begun) && begun.active.Some? && begun.started.None?
      modifies repository
      ensures Valid() && Extended(old(repository.State()), repository.State(), begun.assemblyId)
      ensures (repository.State(), result) == Sliced(old(repository.State()), begun, ports, production)
      ensures result.Success? ==>
        && Current(begun.assemblyId) == Some(result.value) && result.value.assemblyId == begun.assemblyId
        && result.value.active == begun.active && result.value.started.None?
        && begun.active.value.target <= result.value.completed
    {
      hide Good, Latest, Extended, RowsSound, Written, Lawful, Next, Unspent, ValidAuthorities, DurableResult,
        Execution, AnswerAcceptance.AcceptableAnswer, AnswerAcceptance.Closed, SliceFor;
      GoodRows(repository.State());
      ghost var before, a := repository.State(), begun.assemblyId;
      var current := begun;
      while current.completed < current.active.value.target
        invariant Valid() && Current(a) == Some(current) && Extended(before, repository.State(), a)
        invariant current.assemblyId == a && current.active == begun.active && current.started.None?
        invariant Sliced(repository.State(), current, ports, production) == Sliced(before, begun, ports, production)
        decreases TOTAL_SLICES - current.completed
      {
        ghost var held, prior := repository.State(), current;
        var found := MarkNextSliceStarted(current);
        ExtendedOn(before, held, repository.State(), a);
        current := found.value;
        StartLeavesActive(held, prior, current);
        held := repository.State();
        ghost var marked := current;
        found := ExecuteNextSlice(current);
        ExtendedOn(before, held, repository.State(), a);
        if found.Failure? {
          return found;
        }
        current := found.value;
        ExecutionLeavesActive(held, marked, ports(marked), production, current);
      }
      result := Success(current);
    }

    /** Run up to the requested number of slices and close the advance with its receipt. */
    method Advance(request: AdvanceRequest) returns (result: Result<AdvanceReceipt>)
      requires Valid() && ValidAdvanceRequest(request)
      modifies repository
      ensures Valid() && Extended(old(repository.State()), repository.State(), request.assemblyId)
      ensures NeedsNoWork(old(Current(request.assemblyId)), request) ==>
        && AnsweredAsStored(old(Current(request.assemblyId)), request, result)
        && repository.State() == old(repository.State())
      ensures !NeedsNoWork(old(Current(request.assemblyId)), request) && result.Success? ==>
        && Current(request.assemblyId).Some?
        && Closed(old(Current(request.assemblyId)).value, request, Current(request.assemblyId).value, result.value)
      ensures (repository.State(), result) == Advancement(old(repository.State()), request, ports, answers, production)
    {
      hide Good, Latest, Extended, RowsSound, Written, ValidCheckpoint, Lawful, Next, NeedsNoWork, AnsweredAsStored,
        ClaimedAs, SettlesBy, Unspent, ReconcileAnswer, ValidOutcome, ValidAuthorities, DurableResult, Closed,
        Execution, Settlement, Found, AnswerAcceptance.AcceptableAnswer, AnswerAcceptance.Closed, ClaimTables, Finish,
        Sliced;
      ghost var before := repository.State();
      ghost var a := request.assemblyId;
      GoodRows(before);
      SettledAsStored(before, request);
      var found := Projection(request.assemblyId);
      if found.Failure? {
        return Failure(found.error);
      }
      ghost var first := found.value;
      var current := found.value;
      if current.requestSha != request.requestSha || OtherActive(current, request) {
        return Failure(Conflict);
      }
      var replay := ReceiptOf(current, request.operationId);
      if replay.Some? {
        return if ReceiptMatches(replay.value, request) then Success(replay.value) else Failure(Conflict);
      }
      found := ClaimAdvance(request);
      if found.Failure? {
        return Failure(found.error);
      }
      current := found.value;
      AdvancementClosesUnsettled(before, request, ports, answers, production);
      ClaimLeavesActive(before, first, request, current);
      if current.started.Some? {
        ghost var held := repository.State();
        ghost var prior := current;
        found := ReconcileStartedSlice(current);
        ExtendedOn(before, held, repository.State(), a);
        if found.Failure? {
          return Failure(found.error);
        }
        current := found.value;
        SettlementLeavesActive(held, prior, Found(held, prior, answers, production), current);
      }
      ghost var begun := repository.State();
      found := RunSlices(current);
      ExtendedOn(before, begun, repository.State(), a);
      if found.Failure? {
        return Failure(found.error);
      }
      current := found.value;
      ghost var held, prior := repository.State(), current;
      FinishPasses(held, prior);
      found := Finish(current);
      Append(found.value, current.revision, current, FinishMove);
      ExtendedOn(before, held, repository.State(), a);
      result := Success(ReceiptFor(current, current.active.value));
    }
  }
}
