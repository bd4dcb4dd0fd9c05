/** What each call of the controller answers and leaves in the repository: as functions of the tables, and as
 *  a caller sees it, stated without them. */
module ControllerAnswers {
  import opened Wrappers
  import opened AssemblyContracts
  import opened AssemblyTransitions
  import opened HistoryValidation
  import opened HistoryLaws
  import opened AuthorityLaws
  import opened ControllerRuns
  import opened AssemblyRepository
  import opened AssemblyProtocol
  import opened ProtocolSafety
  import AnswerAcceptance
  import SliceClosing
  import WriteAhead

  /** What every controller call finds and leaves in the repository. */
  ghost predicate Good(t: Tables) {
    TablesLawful(t) && RetriesConsumed(t)
  }

  /** Only the history of `a` may have grown, and it only grew at its end. */
  ghost predicate Extended(t: Tables, t': Tables, a: Uuid) {
    && RowsSound(t) && RowsSound(t')
    && (forall b :: b != a ==> History(t', b) == History(t, b))
    && History(t, a) <= History(t', a)
  }

  lemma GoodRows(t: Tables)
    requires Good(t)
    ensures Sound(t) && RowsSound(t) && Extended(t, t, 0)
    ensures forall a :: Extended(t, t, a)
  {
    hide Chronicle, KeysUnique, RetriesSound, ReadbacksSound, RetriesConsumed, RowsSound;
  }

  lemma ExtendedOn(t: Tables, t': Tables, t'': Tables, a: Uuid)
    requires Extended(t, t', a) && Extended(t', t'', a)
    ensures Extended(t, t'', a)
  {
    hide RowsSound, History;
  }

  lemma LatestIsLawful(t: Tables, a: Uuid)
    requires Good(t) && Latest(t, a).Some?
    ensures Stored(t, Latest(t, a).value) && Latest(t, a).value.assemblyId == a
    ensures Lawful(Latest(t, a).value) && ValidCheckpoint(Latest(t, a).value)
  {
    hide Latest, Stored, TablesLawful, RetriesConsumed, RowsSound, Lawful, ValidCheckpoint;
    GoodRows(t);
    LatestIsStored(t, a);
    StoredIsLawful(t, Latest(t, a).value);
    LawfulIsValid(Latest(t, a).value);
  }

  lemma LawfulIsValid(c: Checkpoint)
    requires Lawful(c)
    ensures ValidCheckpoint(c)
  {
    hide ValidCheckpoint, ShapeAccepted, Lexicographic;
  }

  /** With no other writer in between, the next checkpoint of the latest record fits. */
  lemma NextIsWritable(t: Tables, current: Checkpoint, move: Move, c: Checkpoint)
    requires Good(t) && Latest(t, current.assemblyId) == Some(current) && TypedMove(move)
    requires Next(current, move) == Success(c)
    requires ConsumedBy(move).Some? ==> !RetryTaken(t, ConsumedBy(move).value.receiptId, c.assemblyId, c.revision)
    ensures Writable(t, c, current.revision, ConsumedBy(move)) && ValidCheckpoint(c)
    ensures c.assemblyId == current.assemblyId && Lawful(c)
  {
    hide Next, TablesLawful, RetriesConsumed, Lawful, Follows, RetryTaken, KeyTaken, ConsumedBy, RowsSound,
      ValidCheckpoint;
    GoodRows(t);
    LatestIsLawful(t, current.assemblyId);
    NextKeepsLaws(current, move, c);
    FollowsBasics(current, c);
    FollowsRequest(current, c);
    HeadOfLatest(t, current);
  }

  lemma FollowsRequest(prior: Checkpoint, c: Checkpoint)
    requires Follows(prior, c)
    ensures c.request == prior.request
  {
    hide ValidCheckpoint, ShapeAccepted, TransitionAccepted;
  }

  lemma HeadOfLatest(t: Tables, current: Checkpoint)
    requires RowsSound(t) && Latest(t, current.assemblyId) == Some(current)
    ensures current.assemblyId in t.heads
    ensures t.heads[current.assemblyId] == Head(current.request.idempotencyKey, current.revision)
  {
    assert RowSound(t, current.assemblyId, t.heads[current.assemblyId].latest);
  }

  /** Committing a move keeps the repository good and makes its checkpoint the latest. */
  lemma CommitIsGood(t: Tables, current: Checkpoint, move: Move, c: Checkpoint)
    requires Good(t) && Latest(t, current.assemblyId) == Some(current) && TypedMove(move)
    requires Next(current, move) == Success(c) && Writable(t, c, current.revision, ConsumedBy(move))
    ensures Good(Written(t, c, ConsumedBy(move))) && Latest(Written(t, c, ConsumedBy(move)), c.assemblyId) == Some(c)
    ensures Extended(t, Written(t, c, ConsumedBy(move)), c.assemblyId) && c.assemblyId == current.assemblyId
    ensures ConsumedBy(move).Some? ==> Books(c, ConsumedBy(move).value)
  {
    hide Next, TablesLawful, RetriesConsumed, Lawful, Follows, RetryTaken, KeyTaken, ConsumedBy, RowsSound, Bookkeeping,
      Writable, History, Books;
    LatestIsLawful(t, current.assemblyId);
    NextKeepsLaws(current, move, c);
    FollowsBasics(current, c);
    NextBookkeeping(current, move, c);
    CommitConsumes(t, current, move, c);
    CommitExtends(t, current, move, ConsumedBy(move), c);
  }

  lemma NoHead(t: Tables, a: Uuid)
    requires RowsSound(t) && History(t, a) == []
    ensures Latest(t, a).None?
  {
  }

  lemma ChronicleAccepted(t: Tables, a: Uuid)
    requires Good(t) && Latest(t, a).Some?
    ensures RowsSound(t)
    ensures var h := History(t, a);
      |h| > 0 && AcceptedHistory(a, h) && Decoded(h) && h[|h| - 1].checkpoint == Latest(t, a).value
  {
    hide Lawful, AcceptedAt, RetriesConsumed, Latest, RowsSound, KeysUnique, RetriesSound, ReadbacksSound, Decoded,
      FirstAccepted, History;
    assert RowsSound(t);
    assert a in t.heads by { LatestHasHead(t, a); }
    assert Chronicle(a, History(t, a));
    HeadIsLast(t, a);
  }

  lemma LatestHasHead(t: Tables, a: Uuid)
    requires Latest(t, a).Some?
    ensures a in t.heads
  {
  }

  /** A receipt appended under a new operation id is the one found for it. */
  lemma AppendedReceipt(receipts: seq<AdvanceReceipt>, receipt: AdvanceReceipt)
    requires ReceiptIn(receipts, receipt.operationId).None?
    ensures ReceiptIn(receipts + [receipt], receipt.operationId) == Some(receipt)
  {
    if receipts != [] {
      assert (receipts + [receipt])[1..] == receipts[1..] + [receipt];
    }
  }

  lemma MoveFacts(current: Checkpoint, move: Move, c: Checkpoint)
    requires Lawful(current) && TypedMove(move) && Next(current, move) == Success(c)
    ensures Bookkeeping(current, move, c)
    ensures move.ExecuteMove? ==> c.completed == current.completed + 1
    ensures move.StartMove? ==> c.started.Some? && c.completed == current.completed
    ensures move.FinishMove? ==> c.completed == current.completed
    ensures !move.StartMove? ==> c.started.None?
  {
    hide Lawful, ValidCheckpoint, ExecutedItem, Bookkeeping, RequireExecution, RequireFreshIdentity, SliceFor,
      RequireResumeAuthorization, RequireStageRequest, ReconciledItem;
    NextBookkeeping(current, move, c);
    ClaimsFromRest(current);
  }

  lemma ClaimsFromRest(c: Checkpoint)
    requires Lawful(c)
    ensures c.active.None? ==> c.started.None?
  {
    hide ValidParts, Lexicographic, ShapeAccepted, Tiled, ItemsLawful, ResumeLawful, OutcomesPrecede;
  }

  /** Recording a readback keeps the repository good and its histories as they were. */
  lemma RecordIsGood(t: Tables, which: ReadbackTable, outcome: Outcome, a: Uuid)
    requires Good(t) && ValidOutcome(outcome) && outcome.disposition == TerminalReadback
    ensures Good(AssemblyRepository.Recorded(t, which, outcome))
    ensures Extended(t, AssemblyRepository.Recorded(t, which, outcome), a)
    ensures forall b :: Latest(AssemblyRepository.Recorded(t, which, outcome), b) == Latest(t, b)
  {
    hide ValidOutcome, Chronicle, KeysUnique, RetriesSound, ReadbacksSound, Consumed, RowsSound, History;
    RecordedKeepsSound(t, which, outcome);
  }

  // ---------------------------------------------------------------- requests

  predicate OtherActive(c: Checkpoint, request: AdvanceRequest) {
    c.active.Some? && c.active.value.operationId != request.operationId
  }

  predicate ReceiptMatches(r: AdvanceReceipt, request: AdvanceRequest) {
    r.assemblyId == request.assemblyId && r.requestSha == request.requestSha && r.maximum == request.maximum
  }

  predicate ActiveMatches(active: ActiveAdvance, request: AdvanceRequest) {
    && active.operationId == request.operationId
    && active.requestSha == request.requestSha
    && active.maximum == request.maximum
  }

  /** The request opens a new advance on this checkpoint. */
  predicate Claims(c: Checkpoint, request: AdvanceRequest) {
    c.requestSha == request.requestSha && c.active.None? && ReceiptOf(c, request.operationId).None?
  }

  /** What `claim_advance` answers on the latest checkpoint. */
  function ClaimAnswer(latest: Option<Checkpoint>, request: AdvanceRequest): Result<Checkpoint> {
    if latest.None? then Failure(NotFound)
    else
      var c := latest.value;
      if c.requestSha != request.requestSha || OtherActive(c, request) then Failure(Conflict)
      else if ReceiptOf(c, request.operationId).Some? then
        if ReceiptMatches(ReceiptOf(c, request.operationId).value, request) then Success(c) else Failure(Conflict)
      else if c.active.Some? then
        if ActiveMatches(c.active.value, request) then Success(c) else Failure(Conflict)
      else Claim(c, request)
  }

  /** A new claim is written; everything else only reads. */
  ghost function ClaimTables(t: Tables, request: AdvanceRequest): Tables {
    var latest := Latest(t, request.assemblyId);
    if latest.Some? && Claims(latest.value, request) && Claim(latest.value, request).Success? then
      Written(t, Claim(latest.value, request).value, None)
    else
      t
  }

  /** Requests that are answered from the latest checkpoint alone: unknown, refused or replayed. */
  function Settled(latest: Option<Checkpoint>, request: AdvanceRequest): Option<Result<AdvanceReceipt>> {
    if latest.None? then Some(Failure(NotFound))
    else
      var c := latest.value;
      if c.requestSha != request.requestSha || OtherActive(c, request) then Some(Failure(Conflict))
      else if ReceiptOf(c, request.operationId).Some? then
        var r := ReceiptOf(c, request.operationId).value;
        Some(if ReceiptMatches(r, request) then Success(r) else Failure(Conflict))
      else if c.active.Some? && !ActiveMatches(c.active.value, request) then Some(Failure(Conflict))
      else None
  }

  /** The request does not belong to the assembly, or another advance is active. */
  ghost predicate Misdirected(c: Checkpoint, request: AdvanceRequest) {
    c.requestSha != request.requestSha || (c.active.Some? && c.active.value.operationId != request.operationId)
  }

  /** The latest record settles the request: nothing is stored, it is misdirected, its operation has a receipt,
   *  or its operation is active with another allowance. */
  ghost predicate NeedsNoWork(latest: Option<Checkpoint>, request: AdvanceRequest) {
    || latest.None?
    || Misdirected(latest.value, request)
    || Receipted(latest.value, request.operationId)
    || (latest.value.active.Some? && latest.value.active.value.maximum != request.maximum)
  }

  /** What is then answered: the operation's own stored receipt, when the request repeats it. */
  ghost predicate AnsweredAsStored(
    latest: Option<Checkpoint>, request: AdvanceRequest, result: Result<AdvanceReceipt>)
  {
    if latest.None? then result == Failure(NotFound)
    else if Misdirected(latest.value, request) then result == Failure(Conflict)
    else
      && (forall i ::
            0 <= i < |latest.value.receipts| && latest.value.receipts[i].operationId == request.operationId ==>
            var r := latest.value.receipts[i];
            result == if r.assemblyId == request.assemblyId && r.requestSha == request.requestSha
                         && r.maximum == request.maximum then Success(r)
                      else Failure(Conflict))
      && (!Receipted(latest.value, request.operationId) ==> result == Failure(Conflict))
  }

  lemma OneReceiptPerOperation(receipts: seq<AdvanceReceipt>, operationId: Uuid, i: nat)
    requires DistinctReceipts(receipts) && i < |receipts| && receipts[i].operationId == operationId
    ensures ReceiptIn(receipts, operationId) == Some(receipts[i])
  {
    var found := ReceiptIn(receipts, operationId);
    assert found.Some?;
    var j :| 0 <= j < |receipts| && receipts[j] == found.value;
  }

  /** A claim on the latest record: refused, already made or already receipted, or else a new active advance over
   *  the next slices. */
  ghost predicate ClaimedAs(latest: Option<Checkpoint>, request: AdvanceRequest, result: Result<Checkpoint>) {
    if latest.None? then result == Failure(NotFound)
    else
      var c := latest.value;
      if Misdirected(c, request) then result == Failure(Conflict)
      else if Receipted(c, request.operationId) then
        forall i :: 0 <= i < |c.receipts| && c.receipts[i].operationId == request.operationId ==>
          var r := c.receipts[i];
          result == if r.assemblyId == request.assemblyId && r.requestSha == request.requestSha
                       && r.maximum == request.maximum then Success(c)
                    else Failure(Conflict)
      else if c.active.Some? then
        result == if c.active.value.maximum == request.maximum then Success(c) else Failure(Conflict)
      else
        result == Success(c.(
          revision := c.revision + 1,
          status := if c.completed == TOTAL_SLICES then ReadyToUse else Advancing,
          active := Some(ActiveAdvance(
            request.operationId, request.requestSha, request.maximum, c.completed,
            if c.completed + request.maximum < TOTAL_SLICES then c.completed + request.maximum else TOTAL_SLICES))))
  }

  ghost predicate Receipted(c: Checkpoint, operationId: Uuid) {
    exists i :: 0 <= i < |c.receipts| && c.receipts[i].operationId == operationId
  }

  lemma ClaimAnswered(t: Tables, request: AdvanceRequest)
    requires Good(t) && ValidAdvanceRequest(request)
    ensures var latest := Latest(t, request.assemblyId);
      && ClaimedAs(latest, request, ClaimAnswer(latest, request))
      && (latest.Some? && Claims(latest.value, request) <==>
            latest.Some? && !Misdirected(latest.value, request) && !Receipted(latest.value, request.operationId)
            && latest.value.active.None?)
  {
    hide Good, Latest, Lawful, ValidCheckpoint;
    var latest := Latest(t, request.assemblyId);
    if latest.Some? {
      LatestIsLawful(t, request.assemblyId);
      var c := latest.value;
      LawfulReceipts(c);
      if c.active.Some? {
        ActiveFacts(c);
      }
      if Claims(c, request) {
        ClaimSucceeds(c, request);
      }
      forall i | 0 <= i < |c.receipts| && c.receipts[i].operationId == request.operationId
        ensures ReceiptOf(c, request.operationId) == Some(c.receipts[i])
      {
        OneReceiptPerOperation(c.receipts, request.operationId, i);
      }
    }
  }

  lemma LawfulReceipts(c: Checkpoint)
    requires Lawful(c)
    ensures DistinctReceipts(c.receipts)
  {
    hide ValidParts, ShapeAccepted, Lexicographic, Tiled, ItemsLawful, ResumeLawful, OutcomesPrecede;
  }

  /** `Settled` is settled exactly then, and with that answer. */
  lemma SettledAsStored(t: Tables, request: AdvanceRequest)
    requires Good(t)
    ensures var latest := Latest(t, request.assemblyId);
      && (Settled(latest, request).Some? <==> NeedsNoWork(latest, request))
      && (NeedsNoWork(latest, request) ==> AnsweredAsStored(latest, request, Settled(latest, request).value))
  {
    hide Good, Latest, Lawful, ValidParts;
    var latest := Latest(t, request.assemblyId);
    if latest.Some? {
      LatestIsLawful(t, request.assemblyId);
      var c := latest.value;
      if c.active.Some? {
        ActiveFacts(c);
      }
      forall i | 0 <= i < |c.receipts| && c.receipts[i].operationId == request.operationId
        ensures ReceiptOf(c, request.operationId) == Some(c.receipts[i])
      {
        OneReceiptPerOperation(c.receipts, request.operationId, i);
      }
    }
  }

  /** How an advance leaves its assembly: nothing active, and a receipt that ran the whole allowance
   *  from where the advance was claimed. */
  predicate Closed(first: Checkpoint, request: AdvanceRequest, last: Checkpoint, receipt: AdvanceReceipt) {
    && last.active.None? && last.started.None?
    && last.receipts == first.receipts + [receipt]
    && last.requestSha == request.requestSha
    && (forall i :: 0 <= i < |first.receipts| ==> first.receipts[i].operationId != request.operationId)
    && ReceiptMatches(receipt, request) && receipt.operationId == request.operationId
    && receipt.start == (if first.active.Some? then first.active.value.start else first.completed)
    && receipt.end == TargetOf(receipt.start, request.maximum) == last.completed
    && receipt.executed == receipt.end - receipt.start
    && receipt.status == if last.completed == TOTAL_SLICES then ReadyToUse else Advancing
  }

  /** The claimed advance on a later checkpoint of the same call. */
  predicate Held(first: Checkpoint, request: AdvanceRequest, active: ActiveAdvance, c: Checkpoint) {
    && c.assemblyId == request.assemblyId
    && c.active == Some(active)
    && c.receipts == first.receipts
    && ReceiptOf(first, request.operationId).None?
    && ActiveMatches(active, request) && active.requestSha == c.requestSha
    && active.start == (if first.active.Some? then first.active.value.start else first.completed)
    && active.target == TargetOf(active.start, request.maximum)
    && active.start <= c.completed <= active.target
  }

  predicate Underway(first: Checkpoint, request: AdvanceRequest, active: ActiveAdvance, c: Checkpoint) {
    Held(first, request, active, c) && c.started.None?
  }

  /** The active advance of a lawful checkpoint. */
  lemma ActiveFacts(c: Checkpoint)
    requires Lawful(c) && c.active.Some?
    ensures c.active.value.target == TargetOf(c.active.value.start, c.active.value.maximum)
    ensures c.active.value.start <= c.completed <= c.active.value.target <= TOTAL_SLICES
    ensures c.active.value.requestSha == c.requestSha && ValidActive(c.active.value)
  {
    hide ValidSubmit, ValidItem, ValidOutcome, ShapeAccepted, Lexicographic, ItemsLawful, ResumeLawful,
      OutcomesPrecede, Covered;
  }

  /** When the next slice can be marked started, and what refuses it otherwise. */
  lemma StartDecided(c: Checkpoint)
    requires Lawful(c)
    ensures MarkStarted(c) ==
      if c.started.Some? then Failure(Incomplete)
      else if c.active.None? then Failure(Conflict)
      else if c.active.value.target <= c.completed then Failure(Malformed)
      else Success(c.(revision := c.revision + 1, started := SliceFor(c.completed, c)))
  {
    hide ValidSubmit, ValidItem, ValidOutcome, ShapeAccepted, Lexicographic, Tiled, ItemsLawful, ResumeLawful,
      OutcomesPrecede, DistinctReceipts, DistinctOutcomes;
  }

  lemma ClaimSucceeds(c: Checkpoint, request: AdvanceRequest)
    requires Lawful(c) && Claims(c, request) && ValidAdvanceRequest(request)
    ensures Claim(c, request).Success? && Next(c, ClaimMove(request)) == Claim(c, request)
    ensures c.completed <= TOTAL_SLICES
  {
    hide ValidSubmit, ValidItem, ValidOutcome, ShapeAccepted, ItemsLawful, ResumeLawful, OutcomesPrecede, Tiled,
      DistinctReceipts, DistinctOutcomes;
    ClaimsFromRest(c);
  }

  lemma ClaimLeavesActive(t: Tables, first: Checkpoint, request: AdvanceRequest, c: Checkpoint)
    requires Good(t) && Latest(t, request.assemblyId) == Some(first) && ValidAdvanceRequest(request)
    requires Settled(Some(first), request).None? && ClaimAnswer(Some(first), request) == Success(c)
    ensures c.active.Some? && Held(first, request, c.active.value, c)
  {
    hide Good, Latest, Lawful, ValidCheckpoint;
    LatestIsLawful(t, request.assemblyId);
    if first.active.Some? {
      ActiveFacts(first);
    } else {
      ClaimSucceeds(first, request);
    }
  }

  lemma StartKeepsAdvance(
    t: Tables, first: Checkpoint, request: AdvanceRequest, active: ActiveAdvance, prior: Checkpoint, c: Checkpoint)
    requires Good(t) && Latest(t, prior.assemblyId) == Some(prior) && Underway(first, request, active, prior)
    requires Next(prior, StartMove) == Success(c)
    ensures Held(first, request, active, c) && c.started.Some? && c.completed == prior.completed
  {
    hide Good, Latest, Lawful, Next, ReceiptOf, Follows;
    LatestIsLawful(t, prior.assemblyId);
    NextKeepsLaws(prior, StartMove, c);
    FollowsBasics(prior, c);
    MoveFacts(prior, StartMove, c);
  }

  lemma MoveKeepsAdvance(
    t: Tables, first: Checkpoint, request: AdvanceRequest, active: ActiveAdvance, prior: Checkpoint, move: Move,
    c: Checkpoint)
    requires Good(t) && Latest(t, prior.assemblyId) == Some(prior) && Held(first, request, active, prior)
    requires (move.ExecuteMove? || move.ReconcileMove?) && TypedMove(move) && Next(prior, move) == Success(c)
    ensures Underway(first, request, active, c)
    ensures move.ExecuteMove? ==> c.completed == prior.completed + 1
  {
    hide Good, Latest, Lawful, Next, ReceiptOf, Follows, TypedMove, ValidCheckpoint;
    LatestIsLawful(t, prior.assemblyId);
    NextKeepsLaws(prior, move, c);
    FollowsBasics(prior, c);
    MoveFacts(prior, move, c);
    ActiveFacts(c);
  }

  lemma SettlementKeepsAdvance(
    t: Tables, first: Checkpoint, request: AdvanceRequest, active: ActiveAdvance, prior: Checkpoint,
    found: Result<Option<Outcome>>, c: Checkpoint)
    requires Good(t) && Latest(t, prior.assemblyId) == Some(prior) && Held(first, request, active, prior)
    requires Settlement(t, prior, found).1 == Success(c)
    ensures Underway(first, request, active, c)
  {
    hide Good, Latest, Next, Held, Written, RetryTaken, StartScope, ValidOutcome;
    MoveKeepsAdvance(t, first, request, active, prior, ReconcileMove(found.value.value), c);
  }

  lemma ExecutionKeepsAdvance(
    t: Tables, first: Checkpoint, request: AdvanceRequest, active: ActiveAdvance, prior: Checkpoint,
    answer: Result<Authorities>, production: bool, c: Checkpoint)
    requires Good(t) && Latest(t, prior.assemblyId) == Some(prior) && Held(first, request, active, prior)
    requires Execution(t, prior, answer, production).1 == Success(c)
    ensures Underway(first, request, active, c) && c.completed == prior.completed + 1
  {
    hide Good, Latest, Next, Held, Written, StartScope, Filing, Terminal, Underway;
    MoveKeepsAdvance(t, first, request, active, prior, ExecuteMove(answer.value), c);
  }

  lemma FinishSucceeds(t: Tables, first: Checkpoint, request: AdvanceRequest, active: ActiveAdvance, c: Checkpoint)
    requires Good(t) && Latest(t, c.assemblyId) == Some(c) && Underway(first, request, active, c)
    requires active.target <= c.completed
    ensures Finish(c).Success? && Next(c, FinishMove) == Finish(c)
    ensures Closed(first, request, Finish(c).value, ReceiptFor(c, active))
  {
    hide Good, Latest, Lawful, ValidCheckpoint;
    LatestIsLawful(t, c.assemblyId);
    ActiveFacts(c);
    AppendedReceipt(c.receipts, ReceiptFor(c, active));
    FinishIsValid(c, active);
  }

  lemma FinishIsValid(c: Checkpoint, active: ActiveAdvance)
    requires Lawful(c) && c.active == Some(active) && c.started.None? && ReceiptOf(c, active.operationId).None?
    requires active.requestSha == c.requestSha
    ensures active.start <= c.completed
    ensures ValidCheckpoint(c.(
      revision := c.revision + 1, status := RestingStatus(c), active := None,
      receipts := c.receipts + [ReceiptFor(c, active)]))
  {
    hide ValidSubmit, ValidItem, ValidOutcome, ShapeAccepted, ItemsLawful, ResumeLawful, OutcomesPrecede, Covered,
      DistinctOutcomes;
  }

  // ---------------------------------------------------------------- submission

  /** The admission port's answers for the inputs in order, or its first refusal. */
  function AdmittedBy(admission: InputRequest -> Result<AdmittedInput>, inputs: seq<InputRequest>)
    : Result<seq<AdmittedInput>>
  {
    if inputs == [] then Success([])
    else
      var rest :- AdmittedBy(admission, inputs[..|inputs| - 1]);
      var last :- admission(inputs[|inputs| - 1]);
      Success(rest + [last])
  }

  /** What `submit` answers: the stored assembly, a conflict, or a new admission. */
  ghost function SubmitAnswer(t: Tables, request: SubmitRequest, admitted: Result<seq<AdmittedInput>>)
    : Result<Checkpoint>
  {
    var latest := Latest(t, request.assemblyId);
    if latest.Some? then
      if latest.value.requestSha != OfRequest(request) || latest.value.request != request then Failure(Conflict)
      else Success(latest.value)
    else if KeyTaken(t, request.idempotencyKey) then Failure(Conflict)
    else if admitted.Failure? then Failure(admitted.error)
    else Admission(request, admitted.value)
  }

  /** Only a new admission writes, and it writes the first record of its history. */
  ghost function SubmitTables(t: Tables, request: SubmitRequest, admitted: Result<seq<AdmittedInput>>): Tables {
    var answer := SubmitAnswer(t, request, admitted);
    if Latest(t, request.assemblyId).None? && answer.Success? then Written(t, answer.value, None) else t
  }

  /** The port admitted each input under its own path and id, from three different sources, and classified them
   *  as the three required patterns in order. */
  ghost predicate Admissible(inputs: seq<InputRequest>, admitted: seq<AdmittedInput>) {
    && |inputs| == INPUTS && |admitted| == INPUTS
    && (forall i :: 0 <= i < INPUTS ==>
          admitted[i].repositoryPath == inputs[i].repositoryPath && admitted[i].input.inputId == inputs[i].inputId)
    && (forall i, j :: 0 <= i < j < INPUTS ==>
          && admitted[i].input.sourceRef.sha256 != admitted[j].input.sourceRef.sha256
          && admitted[i].input.sourceRef.uri != admitted[j].input.sourceRef.uri)
    && admitted[0].input.pattern == Sequential
    && admitted[1].input.pattern == SelectorGroupChat
    && admitted[2].input.pattern == Swarm
  }

  /** The checkpoint of an assembly of which nothing has happened yet. */
  ghost predicate IsFirst(c: Checkpoint, request: SubmitRequest, admitted: seq<AdmittedInput>) {
    && c.assemblyId == request.assemblyId && c.request == request && c.requestSha == OfRequest(request)
    && c.revision == 1 && c.status == Admitted && c.completed == 0
    && |request.inputs| == INPUTS && |admitted| == INPUTS && |c.items| == INPUTS
    && (forall i :: 0 <= i < INPUTS ==>
          c.items[i] == ItemState(request.inputs[i], admitted[i], [], None, None, None, None, None, None))
    && c.active.None? && c.started.None? && c.last.None? && c.receipts == [] && c.outcomes == []
    && c.resumeAuthorization.None? && c.resumeDispatch.None? && c.resumeReadback.None?
  }

  /** An admission succeeds exactly for admissible inputs, with the first checkpoint. */
  lemma AdmissionIff(request: SubmitRequest, admitted: seq<AdmittedInput>)
    requires ValidSubmit(request) && |admitted| == INPUTS
    ensures Admission(request, admitted).Success? <==> Admissible(request.inputs, admitted)
    ensures Admission(request, admitted).Failure? ==> Admission(request, admitted) == Failure(Conflict)
    ensures Admission(request, admitted).Success? ==> IsFirst(Admission(request, admitted).value, request, admitted)
  {
    hide ValidInputRequest, DistinctInputs, ValidOutcome, ValidReceipt, ValidActive;
  }

  /** What the admission port answers decides a new submission: its first refusal, a conflict for inadmissible
   *  inputs, or else the first checkpoint. */
  ghost predicate AdmittedAs(
    request: SubmitRequest, admission: InputRequest -> Result<AdmittedInput>, result: Result<Checkpoint>)
  {
    && (forall k :: 0 <= k < |request.inputs| && admission(request.inputs[k]).Failure?
                    && (forall i :: 0 <= i < k ==> admission(request.inputs[i]).Success?) ==>
          result == Failure(admission(request.inputs[k]).error))
    && (forall admitted: seq<AdmittedInput> ::
          |admitted| == |request.inputs|
          && (forall i :: 0 <= i < |admitted| ==> admission(request.inputs[i]) == Success(admitted[i])) ==>
            if Admissible(request.inputs, admitted) then
              result.Success? && IsFirst(result.value, request, admitted)
            else result == Failure(Conflict))
  }

  lemma {:induction false} AllAdmitted(
    admission: InputRequest -> Result<AdmittedInput>, inputs: seq<InputRequest>, admitted: seq<AdmittedInput>)
    requires |admitted| == |inputs|
    requires forall i :: 0 <= i < |admitted| ==> admission(inputs[i]) == Success(admitted[i])
    ensures AdmittedBy(admission, inputs) == Success(admitted)
  {
    if inputs != [] {
      var n := |inputs| - 1;
      AllAdmitted(admission, inputs[..n], admitted[..n]);
      assert admitted[..n] + [admitted[n]] == admitted;
    }
  }

  lemma {:induction false} FirstRefusal(
    admission: InputRequest -> Result<AdmittedInput>, inputs: seq<InputRequest>, k: nat)
    requires k < |inputs| && admission(inputs[k]).Failure?
    requires forall i :: 0 <= i < k ==> admission(inputs[i]).Success?
    ensures AdmittedBy(admission, inputs) == Failure(admission(inputs[k]).error)
  {
    var n := |inputs| - 1;
    if k < n {
      FirstRefusal(admission, inputs[..n], k);
    } else {
      var admitted := seq(n, i requires 0 <= i < n => admission(inputs[i]).value);
      AllAdmitted(admission, inputs[..n], admitted);
    }
  }

  /** Submission as a caller sees it: an assembly is admitted once, and a key names one assembly. */
  ghost predicate SubmittedAs(
    t: Tables, request: SubmitRequest, admission: InputRequest -> Result<AdmittedInput>, result: Result<Checkpoint>)
  {
    var latest := Latest(t, request.assemblyId);
    if latest.Some? then result == if latest.value.request == request then Success(latest.value) else Failure(Conflict)
    else if exists a :: a in t.heads && t.heads[a].idempotencyKey == request.idempotencyKey then
      result == Failure(Conflict)
    else AdmittedAs(request, admission, result)
  }

  lemma SubmissionIsDecided(t: Tables, request: SubmitRequest, admission: InputRequest -> Result<AdmittedInput>)
    requires Good(t) && ValidSubmit(request)
    ensures SubmittedAs(t, request, admission, SubmitAnswer(t, request, AdmittedBy(admission, request.inputs)))
  {
    hide Good, Latest, Admission, Admissible, IsFirst, Lawful, ValidSubmit;
    var result := SubmitAnswer(t, request, AdmittedBy(admission, request.inputs));
    if Latest(t, request.assemblyId).Some? {
      LatestKeepsDigest(t, request.assemblyId);
    } else if !KeyTaken(t, request.idempotencyKey) {
      forall k | 0 <= k < |request.inputs| && admission(request.inputs[k]).Failure?
                 && (forall i :: 0 <= i < k ==> admission(request.inputs[i]).Success?)
        ensures result == Failure(admission(request.inputs[k]).error)
      {
        FirstRefusal(admission, request.inputs, k);
      }
      forall admitted: seq<AdmittedInput> |
        |admitted| == |request.inputs|
        && (forall i :: 0 <= i < |admitted| ==> admission(request.inputs[i]) == Success(admitted[i]))
        ensures if Admissible(request.inputs, admitted) then result.Success? && IsFirst(result.value, request, admitted)
                else result == Failure(Conflict)
      {
        AllAdmitted(admission, request.inputs, admitted);
        ThreeInputs(request);
        AdmissionIff(request, admitted);
      }
    }
  }

  lemma ThreeInputs(request: SubmitRequest)
    requires ValidSubmit(request)
    ensures |request.inputs| == INPUTS
  {
  }

  lemma LatestKeepsDigest(t: Tables, a: Uuid)
    requires Good(t) && Latest(t, a).Some?
    ensures Latest(t, a).value.requestSha == OfRequest(Latest(t, a).value.request)
  {
    hide RetriesConsumed, TablesLawful, Latest, AcceptedAt, ValidCheckpoint;
    ChronicleAccepted(t, a);
    var h := History(t, a);
    AcceptedStep(a, h, |h| - 1);
  }

  lemma NoLatest(t: Tables, a: Uuid)
    requires RowsSound(t) && Latest(t, a).None?
    ensures a !in t.heads
  {
    hide RowSound;
  }

  lemma SubmissionFits(t: Tables, request: SubmitRequest, admitted: seq<AdmittedInput>, c: Checkpoint)
    requires Good(t) && request.assemblyId !in t.heads && !KeyTaken(t, request.idempotencyKey)
    requires Admission(request, admitted) == Success(c)
    ensures Writable(t, c, 0, None) && ValidCheckpoint(c)
    ensures c.assemblyId == request.assemblyId && c.request == request
    ensures Good(Written(t, c, None)) && Latest(Written(t, c, None), c.assemblyId) == Some(c)
    ensures Extended(t, Written(t, c, None), c.assemblyId)
  {
    hide TablesLawful, RetriesConsumed, KeyTaken, ValidCheckpoint, RowsSound, History, Lawful;
    AdmittedFields(request, admitted, c);
    AdmissionStarts(request, admitted, c);
    hide Admission;
    SubmitExtends(t, request, admitted, c);
    SubmitConsumes(t, c);
  }

  lemma AdmittedFields(request: SubmitRequest, admitted: seq<AdmittedInput>, c: Checkpoint)
    requires Admission(request, admitted) == Success(c)
    ensures c.assemblyId == request.assemblyId && c.request == request && c.revision == 1
  {
    hide ValidCheckpoint;
  }

  // ---------------------------------------------------------------- what the slice operations do

  /** The adapter of a production input slice files the port's answer, or refuses it. */
  ghost function Filing(t: Tables, scope: ReconciliationRequest, answer: Authorities): Result<Tables> {
    var receipt := EffectOutcome(scope, answer);
    if !FieldPresent(scope.startedSlice.kind, answer) then Failure(Unavailable)
    else if !ValidOutcome(receipt) then Failure(Malformed)
    else if !Recordable(t, EffectReceipts, scope, receipt) then Failure(Conflict)
    else Success(AssemblyRepository.Recorded(t, EffectReceipts, receipt))
  }

  /** The controller's own terminal record of a closed slice. */
  ghost function Terminal(t: Tables, scope: ReconciliationRequest, done: Checkpoint): Result<Tables> {
    var terminal := TerminalOutcome(scope, done);
    if !ValidOutcome(terminal) then Failure(Malformed)
    else if !Recordable(t, TerminalReadbacks, scope, terminal) then Failure(Conflict)
    else Success(AssemblyRepository.Recorded(t, TerminalReadbacks, terminal))
  }

  /** Everything `_execute_next_slice` does to a started checkpoint once its port answered. */
  ghost function Execution(t: Tables, c: Checkpoint, answer: Result<Authorities>, production: bool)
    : (Tables, Result<Checkpoint>)
  {
    if StartScope(c).Failure? then (t, Failure(Conflict))
    else if answer.Failure? then (t, Failure(answer.error))
    else
      var scope := StartScope(c).value;
      var filed := if production && c.completed < INPUT_SLICES then Filing(t, scope, answer.value) else Success(t);
      if filed.Failure? then (t, Failure(filed.error))
      else
        var done := Next(c, ExecuteMove(answer.value));
        if done.Failure? then (filed.value, done)
        else
          var recorded := if production then Terminal(filed.value, scope, done.value) else Success(filed.value);
          if recorded.Failure? then (filed.value, Failure(recorded.error))
          else (Written(recorded.value, done.value, None), done)
  }

  /** What the reconciliation port answers: in production the readback tables, else anything. */
  ghost function Found(
    t: Tables, c: Checkpoint, answers: ReconciliationRequest -> Result<Option<Outcome>>, production: bool)
    : Result<Option<Outcome>>
  {
    if StartScope(c).Failure? then Failure(Conflict)
    else if production then ReconcileAnswer(t, StartScope(c).value)
    else answers(StartScope(c).value)
  }

  /** Everything `_reconcile_started_slice` does with an answer. */
  ghost function Settlement(t: Tables, c: Checkpoint, found: Result<Option<Outcome>>): (Tables, Result<Checkpoint>) {
    if found.Failure? then (t, Failure(found.error))
    else if StartScope(c).Failure? then (t, Failure(Conflict))
    else if found.value.None? then (t, Failure(Incomplete))
    else
      var answer := found.value.value;
      if !ValidOutcome(answer) then (t, Failure(Malformed))
      else if answer.scope != StartScope(c).value then (t, Failure(Conflict))
      else
        var move := ReconcileMove(answer);
        var done := Next(c, move);
        if done.Failure? then (t, done)
        else if ConsumedBy(move).Some?
                && RetryTaken(t, ConsumedBy(move).value.receiptId, done.value.assemblyId, done.value.revision) then
          (t, Failure(Conflict))
        else (Written(t, done.value, ConsumedBy(move)), done)
  }

  lemma SliceIsProgress(c: Checkpoint, started: Checkpoint, ports: Authorities)
    requires Next(c, StartMove) == Success(started) && Next(started, ExecuteMove(ports)).Success?
    ensures Next(started, ExecuteMove(ports)).value.completed == c.completed + 1
  {
    hide ValidCheckpoint, ExecutedItem, RequireExecution, RequireFreshIdentity, RequireResumeAuthorization,
      RequireStageRequest, SliceFor;
  }

  lemma ExecutionIsProgress(
    t: Tables, c: Checkpoint, started: Checkpoint, answer: Result<Authorities>, production: bool)
    requires Next(c, StartMove) == Success(started) && Execution(t, started, answer, production).1.Success?
    ensures Execution(t, started, answer, production).1.value.completed == c.completed + 1
  {
    hide Next, Filing, Terminal, Written, StartScope;
    SliceIsProgress(c, started, answer.value);
  }

  /** The loop of `advance`: start and execute slices until the active advance reaches its target. */
  ghost function Sliced(t: Tables, c: Checkpoint, ports: Checkpoint -> Result<Authorities>, production: bool)
    : (Tables, Result<Checkpoint>)
    decreases TOTAL_SLICES - c.completed
  {
    if c.active.None? || c.active.value.target <= c.completed || TOTAL_SLICES <= c.completed then (t, Success(c))
    else
      var started := Next(c, StartMove);
      if started.Failure? then (t, started)
      else
        var marked := Written(t, started.value, None);
        var (next, done) := Execution(marked, started.value, ports(started.value), production);
        if done.Failure? then (next, done)
        else
          ExecutionIsProgress(marked, c, started.value, ports(started.value), production);
          Sliced(next, done.value, ports, production)
  }

  /** The closing of an advance that reached its target. */
  ghost function Closing(t: Tables, c: Checkpoint): (Tables, Result<AdvanceReceipt>) {
    var closed := Finish(c);
    if closed.Failure? then (t, Failure(closed.error))
    else (Written(t, closed.value, None), Success(ReceiptFor(c, c.active.value)))
  }

  /** Everything `advance` does and answers. */
  ghost function Advancement(
    t: Tables, request: AdvanceRequest, ports: Checkpoint -> Result<Authorities>,
    answers: ReconciliationRequest -> Result<Option<Outcome>>, production: bool): (Tables, Result<AdvanceReceipt>)
  {
    var latest := Latest(t, request.assemblyId);
    if Settled(latest, request).Some? then (t, Settled(latest, request).value)
    else
      var claimed := ClaimAnswer(latest, request);
      if claimed.Failure? then (t, Failure(claimed.error))
      else
        var taken := ClaimTables(t, request);
        var (held, begun) :=
          if claimed.value.started.Some? then
            Settlement(taken, claimed.value, Found(taken, claimed.value, answers, production))
          else (taken, claimed);
        if begun.Failure? then (held, Failure(begun.error))
        else
          var (last, done) := Sliced(held, begun.value, ports, production);
          if done.Failure? then (last, Failure(done.error)) else Closing(last, done.value)
  }

  /** Where a slice of an advance leaves the repository and the latest record. */
  lemma ExecutionIsGood(t: Tables, c: Checkpoint, answer: Result<Authorities>, production: bool)
    requires Good(t) && Latest(t, c.assemblyId) == Some(c) && Execution(t, c, answer, production).1.Success?
    ensures var (next, done) := Execution(t, c, answer, production);
      Good(next) && done.value.assemblyId == c.assemblyId && Latest(next, c.assemblyId) == Some(done.value)
  {
    hide Good, Latest, Next, Written, StartScope, Filing, Terminal, Lawful, ConsumedBy, Writable;
    var scope := StartScope(c).value;
    var filed := if production && c.completed < INPUT_SLICES then Filing(t, scope, answer.value).value else t;
    if production && c.completed < INPUT_SLICES {
      FilingIsGood(t, scope, answer.value, c.assemblyId);
    }
    var done := Next(c, ExecuteMove(answer.value)).value;
    var recorded := if production then Terminal(filed, scope, done).value else filed;
    if production {
      TerminalIsGood(filed, scope, done, c.assemblyId);
    }
    TypedExecute(answer.value);
    NextIsWritable(recorded, c, ExecuteMove(answer.value), done);
    CommitIsGood(recorded, c, ExecuteMove(answer.value), done);
  }

  lemma TypedExecute(answer: Authorities)
    ensures TypedMove(ExecuteMove(answer)) && ConsumedBy(ExecuteMove(answer)).None?
  {
  }

  lemma FilingIsGood(t: Tables, scope: ReconciliationRequest, answer: Authorities, a: Uuid)
    requires Good(t) && Filing(t, scope, answer).Success?
    ensures Good(Filing(t, scope, answer).value) && Latest(Filing(t, scope, answer).value, a) == Latest(t, a)
  {
    hide Good, Latest, ValidOutcome, FieldPresent, Recordable, AssemblyRepository.Recorded;
    EffectIsTerminal(scope, answer);
    RecordIsGood(t, EffectReceipts, EffectOutcome(scope, answer), a);
  }

  lemma TerminalIsGood(t: Tables, scope: ReconciliationRequest, done: Checkpoint, a: Uuid)
    requires Good(t) && Terminal(t, scope, done).Success?
    ensures Good(Terminal(t, scope, done).value) && Latest(Terminal(t, scope, done).value, a) == Latest(t, a)
  {
    hide Good, Latest, ValidOutcome, Recordable, AssemblyRepository.Recorded;
    TerminalIsTerminal(scope, done);
    RecordIsGood(t, TerminalReadbacks, TerminalOutcome(scope, done), a);
  }

  /** A start marker that commits. */
  lemma StartIsGood(t: Tables, c: Checkpoint, started: Checkpoint)
    requires Good(t) && Latest(t, c.assemblyId) == Some(c) && Next(c, StartMove) == Success(started)
    ensures Good(Written(t, started, None)) && started.assemblyId == c.assemblyId
    ensures Latest(Written(t, started, None), c.assemblyId) == Some(started)
  {
    hide Good, Latest, Next, Written, Lawful, Writable;
    NextIsWritable(t, c, StartMove, started);
    CommitIsGood(t, c, StartMove, started);
  }

  /** The loop of an advance ends at its target, or with a refusal. */
  lemma {:induction false} SlicedRuns(
    t: Tables, first: Checkpoint, request: AdvanceRequest, active: ActiveAdvance, c: Checkpoint,
    ports: Checkpoint -> Result<Authorities>, production: bool)
    requires Good(t) && Latest(t, c.assemblyId) == Some(c) && Underway(first, request, active, c)
    ensures var (next, done) := Sliced(t, c, ports, production);
      done.Success? ==>
        && Good(next) && done.value.assemblyId == c.assemblyId && Latest(next, c.assemblyId) == Some(done.value)
        && Underway(first, request, active, done.value) && active.target <= done.value.completed
    decreases TOTAL_SLICES - c.completed
  {
    hide Good, Latest, Next, Written, Execution, Lawful, ValidCheckpoint;
    LatestIsLawful(t, c.assemblyId);
    ActiveFacts(c);
    if c.completed < active.target && Next(c, StartMove).Success? {
      var started := Next(c, StartMove).value;
      var marked := Written(t, started, None);
      StartIsGood(t, c, started);
      StartKeepsAdvance(t, first, request, active, c, started);
      var (next, done) := Execution(marked, started, ports(started), production);
      if done.Success? {
        ExecutionIsGood(marked, started, ports(started), production);
        ExecutionKeepsAdvance(marked, first, request, active, started, ports(started), production, done.value);
        SlicedRuns(next, first, request, active, done.value, ports, production);
      }
    }
  }

  lemma SettlementIsGood(t: Tables, c: Checkpoint, found: Result<Option<Outcome>>)
    requires Good(t) && Latest(t, c.assemblyId) == Some(c) && Settlement(t, c, found).1.Success?
    ensures var (next, done) := Settlement(t, c, found);
      Good(next) && done.value.assemblyId == c.assemblyId && Latest(next, c.assemblyId) == Some(done.value)
  {
    hide Good, Latest, Next, Written, StartScope, Lawful, ValidOutcome, Writable, RetryTaken, ConsumedBy;
    var move := ReconcileMove(found.value.value);
    var done := Next(c, move).value;
    NextIsWritable(t, c, move, done);
    CommitIsGood(t, c, move, done);
  }

  lemma ClaimIsGood(t: Tables, request: AdvanceRequest)
    requires Good(t) && ValidAdvanceRequest(request)
    requires ClaimAnswer(Latest(t, request.assemblyId), request).Success?
    ensures Good(ClaimTables(t, request))
    ensures Latest(ClaimTables(t, request), request.assemblyId)
         == Some(ClaimAnswer(Latest(t, request.assemblyId), request).value)
  {
    hide Good, Latest, Written, Lawful, Writable, ValidCheckpoint, Next;
    LatestIsLawful(t, request.assemblyId);
    var c := Latest(t, request.assemblyId).value;
    if Claims(c, request) {
      ClaimSucceeds(c, request);
      NextIsWritable(t, c, ClaimMove(request), Claim(c, request).value);
      CommitIsGood(t, c, ClaimMove(request), Claim(c, request).value);
    }
  }

  /** A successful advance closes its assembly, at the end of its allowance and under one new receipt. */
  lemma AdvancementCloses(
    t: Tables, request: AdvanceRequest, ports: Checkpoint -> Result<Authorities>,
    answers: ReconciliationRequest -> Result<Option<Outcome>>, production: bool)
    requires Good(t) && ValidAdvanceRequest(request) && Settled(Latest(t, request.assemblyId), request).None?
    ensures var (next, result) := Advancement(t, request, ports, answers, production);
      result.Success? ==>
        && Latest(t, request.assemblyId).Some? && Latest(next, request.assemblyId).Some?
        && Closed(Latest(t, request.assemblyId).value, request, Latest(next, request.assemblyId).value, result.value)
  {
    hide Good, Latest, Settlement, Sliced, Found, Lawful, ValidCheckpoint, Finish, ReceiptFor, Closed, ClaimAnswer,
      ClaimTables;
    var first := Latest(t, request.assemblyId).value;
    var (next, result) := Advancement(t, request, ports, answers, production);
    if result.Success? {
      var claimed := ClaimAnswer(Some(first), request).value;
      var taken := ClaimTables(t, request);
      ClaimIsGood(t, request);
      ClaimLeavesActive(t, first, request, claimed);
      var active := claimed.active.value;
      var found := Found(taken, claimed, answers, production);
      var (held, begun) :=
        if claimed.started.Some? then Settlement(taken, claimed, found) else (taken, Success(claimed));
      if claimed.started.Some? {
        SettlementIsGood(taken, claimed, found);
        SettlementKeepsAdvance(taken, first, request, active, claimed, found, begun.value);
      }
      SlicedRuns(held, first, request, active, begun.value, ports, production);
      var (last, done) := Sliced(held, begun.value, ports, production);
      FinishSucceeds(last, first, request, active, done.value);
      FinishIsLatest(last, done.value);
    }
  }

  lemma FinishIsLatest(t: Tables, c: Checkpoint)
    requires Finish(c).Success?
    ensures c.active.Some? && Closing(t, c).1 == Success(ReceiptFor(c, c.active.value))
    ensures Latest(Closing(t, c).0, c.assemblyId) == Some(Finish(c).value)
  {
    hide ValidCheckpoint;
  }

  /** What an advance returned, it returns again, and writes nothing. */
  lemma AdvanceRepeats(
    t: Tables, request: AdvanceRequest, ports: Checkpoint -> Result<Authorities>,
    answers: ReconciliationRequest -> Result<Option<Outcome>>, production: bool)
    requires Good(t) && ValidAdvanceRequest(request)
    ensures var (next, result) := Advancement(t, request, ports, answers, production);
      result.Success? ==> Advancement(next, request, ports, answers, production) == (next, result)
  {
    hide Good, Latest, Settlement, Sliced, Found, ClaimAnswer, ClaimTables, Closing;
    if Settled(Latest(t, request.assemblyId), request).None? {
      AdvancementCloses(t, request, ports, answers, production);
      var (next, result) := Advancement(t, request, ports, answers, production);
      if result.Success? {
        AppendedReceipt(Latest(t, request.assemblyId).value.receipts, result.value);
      }
    }
  }

  lemma AdvancementClosesUnsettled(
    t: Tables, request: AdvanceRequest, ports: Checkpoint -> Result<Authorities>,
    answers: ReconciliationRequest -> Result<Option<Outcome>>, production: bool)
    requires Good(t) && ValidAdvanceRequest(request)
    ensures var (next, result) := Advancement(t, request, ports, answers, production);
      Settled(Latest(t, request.assemblyId), request).None? && result.Success? ==>
        && Latest(t, request.assemblyId).Some? && Latest(next, request.assemblyId).Some?
        && Closed(Latest(t, request.assemblyId).value, request, Latest(next, request.assemblyId).value, result.value)
  {
    hide Good, Latest, Advancement, Closed, Settled;
    if Settled(Latest(t, request.assemblyId), request).None? {
      AdvancementCloses(t, request, ports, answers, production);
    }
  }

  lemma SettlementLeavesActive(t: Tables, c: Checkpoint, found: Result<Option<Outcome>>, next: Checkpoint)
    requires Good(t) && Latest(t, c.assemblyId) == Some(c) && c.active.Some?
    requires Settlement(t, c, found).1 == Success(next)
    ensures next.active == c.active && next.started.None? && next.assemblyId == c.assemblyId
  {
    hide Good, Latest, Next, Written, RetryTaken, StartScope, ValidOutcome, Lawful;
    LatestIsLawful(t, c.assemblyId);
    MoveFacts(c, ReconcileMove(found.value.value), next);
    SettlementIsGood(t, c, found);
  }

  lemma StartLeavesActive(t: Tables, c: Checkpoint, started: Checkpoint)
    requires Good(t) && Latest(t, c.assemblyId) == Some(c) && c.active.Some? && Next(c, StartMove) == Success(started)
    ensures started.active == c.active && started.started.Some? && started.assemblyId == c.assemblyId
    ensures started.completed == c.completed && c.active.value.target <= TOTAL_SLICES
  {
    hide Good, Latest, Next, Lawful, Written;
    LatestIsLawful(t, c.assemblyId);
    ActiveFacts(c);
    MoveFacts(c, StartMove, started);
    StartIsGood(t, c, started);
  }

  lemma ExecutionLeavesActive(
    t: Tables, c: Checkpoint, answer: Result<Authorities>, production: bool, done: Checkpoint)
    requires Good(t) && Latest(t, c.assemblyId) == Some(c) && c.active.Some?
    requires Execution(t, c, answer, production).1 == Success(done)
    ensures done.active == c.active && done.started.None? && done.assemblyId == c.assemblyId
    ensures done.completed == c.completed + 1
  {
    hide Good, Latest, Next, Lawful, Written, StartScope, Filing, Terminal;
    LatestIsLawful(t, c.assemblyId);
    MoveFacts(c, ExecuteMove(answer.value), done);
    ExecutionIsGood(t, c, answer, production);
  }

  /** An advance that reached its target can be closed. */
  lemma FinishPasses(t: Tables, c: Checkpoint)
    requires Good(t) && Latest(t, c.assemblyId) == Some(c) && c.active.Some? && c.started.None?
    requires c.active.value.target <= c.completed
    ensures Finish(c).Success? && Next(c, FinishMove) == Finish(c) && c.active.value.start <= c.completed
  {
    hide Good, Latest, Lawful, ValidCheckpoint;
    LatestIsLawful(t, c.assemblyId);
    ActiveFacts(c);
    ActiveIsFresh(c);
    FinishIsValid(c, c.active.value);
  }

  lemma ActiveIsFresh(c: Checkpoint)
    requires Lawful(c) && c.active.Some?
    ensures ReceiptOf(c, c.active.value.operationId).None?
  {
    hide ValidCheckpoint;
  }

  /** No table holds anything under the start marker's key. */
  ghost predicate Unspent(t: Tables, c: Checkpoint) {
    && c.active.Some? && c.started.Some?
    && var key := ReadbackKey(c.assemblyId, c.active.value.operationId, c.requestSha, c.started.value.ordinal,
                              OfCheckpoint(c));
    key !in t.effects && key !in t.terminal
  }

  /** With its start marker unspent, a typed answer closes its slice if and only if it is acceptable, and leaves
   *  exactly the closed checkpoint: nothing else can get in the way, in production or outside it. */
  lemma AcceptedAnswerCloses(t: Tables, c: Checkpoint, answer: Authorities, production: bool)
    requires Lawful(c) && c.started.Some? && ValidAuthorities(answer) && (production ==> Unspent(t, c))
    ensures Execution(t, c, Success(answer), production).1.Success? <==> AnswerAcceptance.AcceptableAnswer(c, answer)
    ensures Execution(t, c, Success(answer), production).1.Success? ==>
      Execution(t, c, Success(answer), production).1.value == AnswerAcceptance.Closed(c, answer)
  {
    hide Lawful, Next, TerminalOutcome, EffectOutcome, ValidOutcome, ValidAuthorities, FieldPresent, Written,
      AnswerAcceptance.AcceptableAnswer, AnswerAcceptance.Closed;
    WriteAhead.StartHasScope(c);
    AnswerAcceptance.AnswerAcceptedIff(c, answer);
    var done := Next(c, ExecuteMove(answer));
    if done.Success? {
      var scope := StartScope(c).value;
      WriteAhead.TerminalRecordIsValid(c, answer, done.value);
      WriteAhead.PortAnswered(c, answer, done.value);
      WriteAhead.EffectIsTerminalOutcome(c, answer, done.value, scope);
      EffectIsTerminal(scope, answer);
    } else {
      UnacceptedFails(t, c, answer, production);
    }
  }

  lemma ExecutionIsDecided(t: Tables, c: Checkpoint, answer: Result<Authorities>, production: bool)
    requires Good(t) && Latest(t, c.assemblyId) == Some(c) && c.started.Some?
    ensures answer.Success? && ValidAuthorities(answer.value) && (production ==> Unspent(t, c)) ==>
      && (Execution(t, c, answer, production).1.Success? <==> AnswerAcceptance.AcceptableAnswer(c, answer.value))
      && (Execution(t, c, answer, production).1.Success? ==>
            Execution(t, c, answer, production).1.value == AnswerAcceptance.Closed(c, answer.value))
  {
    hide Good, Latest, Lawful, ValidCheckpoint, ValidAuthorities, Unspent, Execution, AnswerAcceptance.AcceptableAnswer,
      AnswerAcceptance.Closed;
    LatestIsLawful(t, c.assemblyId);
    if answer.Success? && ValidAuthorities(answer.value) && (production ==> Unspent(t, c)) {
      AcceptedAnswerCloses(t, c, answer.value, production);
    }
  }

  lemma UnacceptedFails(t: Tables, c: Checkpoint, answer: Authorities, production: bool)
    requires Next(c, ExecuteMove(answer)).Failure?
    ensures Execution(t, c, Success(answer), production).1.Failure?
  {
    hide Next, Filing, StartScope;
  }

  // ---------------------------------------------------------------- when an advance succeeds

  /** The ports answer every started slice of the assembly acceptably. */
  ghost predicate Obliging(ports: Checkpoint -> Result<Authorities>, a: Uuid) {
    forall c :: Lawful(c) && c.started.Some? && c.assemblyId == a ==>
      ports(c).Success? && ValidAuthorities(ports(c).value) && AnswerAcceptance.AcceptableAnswer(c, ports(c).value)
  }

  /** Everything in the readback tables is about a stored record. */
  ghost predicate KeysStored(t: Tables) {
    forall k :: k in t.effects || k in t.terminal ==>
      k.startedSha.OfCheckpoint? && Stored(t, k.startedSha.checkpoint)
  }

  /** The next record of an assembly is new, so a start marker is unspent when it is written. */
  lemma NextIsUnspent(t: Tables, c: Checkpoint, next: Checkpoint)
    requires Good(t) && Latest(t, c.assemblyId) == Some(c) && KeysStored(t)
    requires next.assemblyId == c.assemblyId && next.revision == c.revision + 1
    ensures KeysStored(Written(t, next, None))
    ensures next.active.Some? && next.started.Some? ==> Unspent(Written(t, next, None), next)
  {
    hide Good, Latest;
    GoodRows(t);
    NextRevisionIsFree(t, c);
  }

  lemma FilingKeepsKeys(t: Tables, scope: ReconciliationRequest, answer: Authorities, c: Checkpoint)
    requires KeysStored(t) && Stored(t, c) && StartScope(c) == Success(scope) && Filing(t, scope, answer).Success?
    ensures KeysStored(Filing(t, scope, answer).value) && Stored(Filing(t, scope, answer).value, c)
  {
    hide ValidOutcome, FieldPresent, PortField;
    WriteAhead.KeyOfStart(c);
  }

  lemma TerminalKeepsKeys(t: Tables, scope: ReconciliationRequest, done: Checkpoint, c: Checkpoint)
    requires KeysStored(t) && Stored(t, c) && StartScope(c) == Success(scope) && Terminal(t, scope, done).Success?
    ensures KeysStored(Terminal(t, scope, done).value)
  {
    hide ValidOutcome, StoredAuthority;
    WriteAhead.KeyOfStart(c);
  }

  lemma ExecutionKeepsKeys(t: Tables, c: Checkpoint, answer: Result<Authorities>, production: bool)
    requires Good(t) && Latest(t, c.assemblyId) == Some(c) && KeysStored(t)
    requires Execution(t, c, answer, production).1.Success?
    ensures KeysStored(Execution(t, c, answer, production).0)
  {
    hide Good, Latest, Next, Written, StartScope, Filing, Terminal, Lawful, Stored, KeysStored;
    LatestIsLawful(t, c.assemblyId);
    var scope := StartScope(c).value;
    var filed := if production && c.completed < INPUT_SLICES then Filing(t, scope, answer.value).value else t;
    if production && c.completed < INPUT_SLICES {
      FilingKeepsKeys(t, scope, answer.value, c);
      FilingIsGood(t, scope, answer.value, c.assemblyId);
    }
    var done := Next(c, ExecuteMove(answer.value)).value;
    var recorded := if production then Terminal(filed, scope, done).value else filed;
    if production {
      TerminalKeepsKeys(filed, scope, done, c);
      TerminalIsGood(filed, scope, done, c.assemblyId);
    }
    ExecutionRevision(c, answer.value, done);
    ExecutionIsGood(t, c, answer, production);
    NextIsUnspent(recorded, c, done);
  }

  lemma ExecutionRevision(c: Checkpoint, answer: Authorities, done: Checkpoint)
    requires Lawful(c) && Next(c, ExecuteMove(answer)) == Success(done)
    ensures done.assemblyId == c.assemblyId && done.revision == c.revision + 1
  {
    hide Lawful, Next, Follows;
    NextKeepsLaws(c, ExecuteMove(answer), done);
    FollowsBasics(c, done);
  }

  /** With obliging ports the loop reaches its target. */
  lemma {:induction false} SlicedSucceeds(
    t: Tables, c: Checkpoint, ports: Checkpoint -> Result<Authorities>, production: bool)
    requires Good(t) && Latest(t, c.assemblyId) == Some(c) && c.active.Some? && c.started.None?
    requires Obliging(ports, c.assemblyId) && KeysStored(t)
    ensures Sliced(t, c, ports, production).1.Success?
    decreases TOTAL_SLICES - c.completed
  {
    hide Good, Latest, Next, Written, Execution, Lawful, ValidCheckpoint, KeysStored, ValidAuthorities, Unspent,
      AnswerAcceptance.AcceptableAnswer, AnswerAcceptance.Closed, MarkStarted;
    LatestIsLawful(t, c.assemblyId);
    ActiveFacts(c);
    if c.completed < c.active.value.target {
      StartDecided(c);
      StartIsMark(c);
      var started := Next(c, StartMove).value;
      var marked := Written(t, started, None);
      StartIsGood(t, c, started);
      StartLeavesActive(t, c, started);
      LatestIsLawful(marked, started.assemblyId);
      NextIsUnspent(t, c, started);
      ExecutionIsDecided(marked, started, ports(started), production);
      var (next, done) := Execution(marked, started, ports(started), production);
      ExecutionIsGood(marked, started, ports(started), production);
      ExecutionKeepsKeys(marked, started, ports(started), production);
      ExecutionLeavesActive(marked, started, ports(started), production, done.value);
      SlicedSucceeds(next, done.value, ports, production);
    }
  }

  lemma StartIsMark(c: Checkpoint)
    requires c.active.Some? && c.completed < c.active.value.target
    ensures Next(c, StartMove) == MarkStarted(c)
  {
  }

  /** An advance with work to do, on an assembly without a started slice and with ports that answer acceptably,
   *  succeeds. */
  lemma AdvanceSucceeds(
    t: Tables, request: AdvanceRequest, ports: Checkpoint -> Result<Authorities>,
    answers: ReconciliationRequest -> Result<Option<Outcome>>, production: bool)
    requires Good(t) && ValidAdvanceRequest(request) && !NeedsNoWork(Latest(t, request.assemblyId), request)
    requires Latest(t, request.assemblyId).value.started.None?
    requires Obliging(ports, request.assemblyId) && KeysStored(t)
    ensures Advancement(t, request, ports, answers, production).1.Success?
  {
    hide Good, Latest, Sliced, Lawful, Finish, KeysStored, Obliging, Claim, Written, NeedsNoWork;
    SettledAsStored(t, request);
    var first := Latest(t, request.assemblyId).value;
    LatestIsLawful(t, request.assemblyId);
    var claimed, taken := ClaimAnswer(Some(first), request), ClaimTables(t, request);
    ClaimStarts(t, first, request);
    ClaimIsGood(t, request);
    ClaimLeavesActive(t, first, request, claimed.value);
    var active := claimed.value.active.value;
    SlicedSucceeds(taken, claimed.value, ports, production);
    SlicedRuns(taken, first, request, active, claimed.value, ports, production);
    var (last, done) := Sliced(taken, claimed.value, ports, production);
    FinishPasses(last, done.value);
  }

  lemma ClaimStarts(t: Tables, first: Checkpoint, request: AdvanceRequest)
    requires Good(t) && Latest(t, request.assemblyId) == Some(first) && ValidAdvanceRequest(request)
    requires Settled(Some(first), request).None? && first.started.None? && KeysStored(t)
    ensures ClaimAnswer(Some(first), request).Success? && ClaimAnswer(Some(first), request).value.started.None?
    ensures KeysStored(ClaimTables(t, request))
  {
    hide Good, Latest, Lawful, ValidCheckpoint, Written, KeysStored;
    LatestIsLawful(t, request.assemblyId);
    if first.active.None? {
      ClaimSucceeds(first, request);
      NextIsUnspent(t, first, Claim(first, request).value);
    }
  }

  /** The settlement of a started slice, over the answer it gets: a retry receipt for exactly this slice clears it
   *  if and only if the receipt was never consumed; a recorded result closes it if and only if it was recorded
   *  for it and is acceptable. */
  ghost predicate SettlesBy(t: Tables, c: Checkpoint, answer: Outcome, result: Result<Checkpoint>)
    requires c.active.Some? && c.started.Some?
  {
    var scoped := answer.scope == AnswerAcceptance.StartedScope(c);
    match answer.disposition
    case RetryAuthorizedNoEffect =>
      && answer.retry.Some?
      && result == if scoped && answer.retry.value.receiptId !in t.retries
                   then Success(AnswerAcceptance.Cleared(c, answer)) else Failure(Conflict)
    case TerminalReadback =>
      && (result.Success? <==> scoped && AnswerAcceptance.AcceptableAnswer(c, answer.authorities))
      && (!scoped ==> result == Failure(Conflict))
      && (result.Success? ==>
            result.value == AnswerAcceptance.Closed(c, answer.authorities).(outcomes := c.outcomes + [answer]))
  }

  lemma SettlementSettles(t: Tables, c: Checkpoint, answer: Outcome)
    requires Good(t) && Latest(t, c.assemblyId) == Some(c) && c.started.Some? && ValidOutcome(answer)
    ensures c.active.Some? && SettlesBy(t, c, answer, Settlement(t, c, Success(Some(answer))).1)
  {
    hide Good, Latest, Lawful, ValidCheckpoint, ValidOutcome, Written, RetryTaken, Next,
      AnswerAcceptance.AcceptableAnswer, AnswerAcceptance.Closed, AnswerAcceptance.Unrecorded;
    LatestIsLawful(t, c.assemblyId);
    AnswerAcceptance.StartedHasScope(c);
    if answer.disposition == RetryAuthorizedNoEffect {
      AnswerAcceptance.RetryClearsIff(c, answer);
      ReceiptIsFresh(t, c, answer.retry.value.receiptId);
    } else {
      AnswerAcceptance.ReadbackClosesIff(c, answer);
    }
  }

  lemma SettlementConsumes(t: Tables, c: Checkpoint, answer: Outcome)
    requires ValidOutcome(answer) && answer.retry.Some? && Settlement(t, c, Success(Some(answer))).1.Success?
    ensures var retries := Settlement(t, c, Success(Some(answer))).0.retries;
      && answer.retry.value.receiptId in retries
      && retries[answer.retry.value.receiptId].authorization == answer.retry.value
  {
    hide Next, RetryTaken, StartScope, ValidAuthorities;
  }

  lemma SettlementIsDecided(
    t: Tables, c: Checkpoint, answers: ReconciliationRequest -> Result<Option<Outcome>>, production: bool)
    requires Good(t) && Latest(t, c.assemblyId) == Some(c) && c.started.Some?
    ensures c.active.Some? && StartScope(c) == Success(AnswerAcceptance.StartedScope(c))
    ensures var found := Found(t, c, answers, production);
      found.Success? && found.value.Some? && ValidOutcome(found.value.value) ==>
        && SettlesBy(t, c, found.value.value, Settlement(t, c, found).1)
        && (Settlement(t, c, found).1.Success? && found.value.value.retry.Some? ==>
              var receipt := found.value.value.retry.value;
              && receipt.receiptId in Settlement(t, c, found).0.retries
              && Settlement(t, c, found).0.retries[receipt.receiptId].authorization == receipt)
  {
    hide Good, Latest, Lawful, ValidCheckpoint, ValidOutcome, Settlement, SettlesBy, ReconcileAnswer;
    LatestIsLawful(t, c.assemblyId);
    AnswerAcceptance.StartedHasScope(c);
    var found := Found(t, c, answers, production);
    if found.Success? && found.value.Some? && ValidOutcome(found.value.value) {
      SettlementSettles(t, c, found.value.value);
      if Settlement(t, c, found).1.Success? && found.value.value.retry.Some? {
        SettlementConsumes(t, c, found.value.value);
      }
    }
  }

  /** No receipt is booked on the revision after the latest, and every recorded receipt is in the table. */
  lemma ReceiptIsFresh(t: Tables, c: Checkpoint, receiptId: Uuid)
    requires Good(t) && Latest(t, c.assemblyId) == Some(c)
    ensures RetryTaken(t, receiptId, c.assemblyId, c.revision + 1) <==> receiptId in t.retries
    ensures receiptId !in t.retries ==> AnswerAcceptance.Unrecorded(c, receiptId)
  {
    hide TablesLawful, Lawful, Latest, Consumed, Books, AnswerAcceptance.Unrecorded;
    GoodRows(t);
    LatestIsLawful(t, c.assemblyId);
    NextRevisionIsFree(t, c);
    NothingBookedOn(t, c.assemblyId, c.revision + 1);
    if receiptId !in t.retries {
      RecordedIsConsumed(t, c, receiptId);
    }
  }

  lemma NextRevisionIsFree(t: Tables, c: Checkpoint)
    requires RowsSound(t) && Latest(t, c.assemblyId) == Some(c)
    ensures (c.assemblyId, c.revision + 1) !in t.rows
  {
    hide RowsSound, Latest, History;
    HeadOfLatest(t, c);
    WriteAhead.HeadLength(t);
    WriteAhead.RowsBelowHead(t, c.assemblyId, c.revision + 1);
  }

  lemma NothingBookedOn(t: Tables, a: Uuid, revision: nat)
    requires Sound(t) && (a, revision) !in t.rows
    ensures forall id :: id in t.retries ==> !(t.retries[id].assemblyId == a && t.retries[id].revision == revision)
  {
    hide RowsSound, KeysUnique, ReadbacksSound, Books;
  }

  lemma RecordedIsConsumed(t: Tables, c: Checkpoint, receiptId: Uuid)
    requires RetriesConsumed(t) && Stored(t, c) && ValidCheckpoint(c) && receiptId !in t.retries
    ensures AnswerAcceptance.Unrecorded(c, receiptId)
  {
    hide ValidSubmit, ValidItem, ValidBinding, ValidReceipt, ValidActive;
    assert Consumed(t.retries, c.assemblyId, c.outcomes);
    assert forall i :: 0 <= i < |c.outcomes| ==> ValidOutcome(c.outcomes[i]);
  }

  lemma HistoryHasLatest(t: Tables, a: Uuid)
    requires RowsSound(t) && History(t, a) != []
    ensures Latest(t, a).Some?
  {
    HistoryRows(t, a);
  }

  /** The result of the slice started by `current` can be read back under that start's scope. */
  ghost predicate DurableResult(t: Tables, current: Checkpoint, done: Checkpoint) {
    StartScope(current).Success?
    && Readable(t, StartScope(current).value, TerminalOutcome(StartScope(current).value, done))
  }

  /** The checks before the port of a started slice pass, and its scope exists. */
  lemma StartedIsCallable(t: Tables, c: Checkpoint)
    requires Good(t) && Latest(t, c.assemblyId) == Some(c) && c.started.Some?
    ensures Callable(c) && StartScope(c).Success?
  {
    hide Good, Latest, Callable, StartScope, Lawful, ValidCheckpoint;
    LatestIsLawful(t, c.assemblyId);
    SliceClosing.LawfulIsCallable(c);
    WriteAhead.StartHasScope(c);
  }

  /** With no other writer in between, only a consumed receipt keeps a settlement from committing. */
  lemma RetryDecides(t: Tables, current: Checkpoint, move: Move, c: Checkpoint)
    requires Good(t) && Latest(t, current.assemblyId) == Some(current) && TypedMove(move)
    requires Next(current, move) == Success(c) && ConsumedBy(move).Some?
    ensures Writable(t, c, current.revision, ConsumedBy(move))
      <==> !RetryTaken(t, ConsumedBy(move).value.receiptId, c.assemblyId, c.revision)
    ensures Books(c, ConsumedBy(move).value)
  {
    hide Good, Latest, Next, Lawful, ValidCheckpoint, RetryTaken, KeyTaken, Bookkeeping, Follows;
    if !RetryTaken(t, ConsumedBy(move).value.receiptId, c.assemblyId, c.revision) {
      NextIsWritable(t, current, move, c);
    }
    NextBookkeeping(current, move, c);
    ReconcileBooks(current, move, c);
  }

  lemma ReconcileBooks(current: Checkpoint, move: Move, c: Checkpoint)
    requires Bookkeeping(current, move, c) && ConsumedBy(move).Some?
    ensures Books(c, ConsumedBy(move).value)
  {
    assert c.outcomes[|current.outcomes|].retry == ConsumedBy(move);
  }

  lemma RecordedIsReadable(t: Tables, which: ReadbackTable, outcome: Outcome)
    requires outcome.disposition == TerminalReadback
    ensures Readable(AssemblyRepository.Recorded(t, which, outcome), outcome.scope, outcome)
  {
  }

  lemma WrittenReadable(t: Tables, c: Checkpoint, scope: ReconciliationRequest, outcome: Outcome)
    ensures Readable(Written(t, c, None), scope, outcome) == Readable(t, scope, outcome)
  {
  }

  /** A slice that closes in production leaves its result readable. */
  lemma ExecutionIsDurable(t: Tables, c: Checkpoint, answer: Result<Authorities>)
    ensures var (next, done) := Execution(t, c, answer, true);
      done.Success? ==> DurableResult(next, c, done.value)
  {
    hide Next, StartScope, Written, Filing, AssemblyRepository.Recorded, Readable, ValidOutcome, StoredAuthority;
    var (next, done) := Execution(t, c, answer, true);
    if done.Success? {
      var scope := StartScope(c).value;
      var filed := if c.completed < INPUT_SLICES then Filing(t, scope, answer.value).value else t;
      var terminal := TerminalOutcome(scope, done.value);
      RecordedIsReadable(filed, TerminalReadbacks, terminal);
      WrittenReadable(AssemblyRepository.Recorded(filed, TerminalReadbacks, terminal), done.value, scope, terminal);
    }
  }

  lemma SettledIsValid(t: Tables, current: Checkpoint, move: Move, c: Checkpoint)
    requires Good(t) && Latest(t, current.assemblyId) == Some(current) && TypedMove(move)
    requires Next(current, move) == Success(c)
    ensures ValidCheckpoint(c)
  {
    hide Next, Good, Latest, Lawful, Follows, ValidCheckpoint;
    LatestIsLawful(t, current.assemblyId);
    NextKeepsLaws(current, move, c);
    FollowsBasics(current, c);
  }
}
