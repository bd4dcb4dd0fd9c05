/** The protocol gets on: from any reachable state an idle process can drive the next slice to its port,
 *  and a slice whose effect receipt was filed before a crash can be finished without its effect. */
module ProtocolProgress {
  import opened Wrappers
  import opened AssemblyContracts
  import opened AssemblyTransitions
  import opened HistoryValidation
  import opened HistoryLaws
  import opened AuthorityLaws
  import opened ControllerRuns
  import opened AssemblyRepository
  import opened AssemblyProtocol
  import opened ProtocolSafety
  import ControllerAnswers
  import RecoveryRefinement
  import SliceClosing

  lemma LatestFacts(w: World, c: Checkpoint)
    requires Safe(w) && Latest(w.tables, c.assemblyId) == Some(c)
    ensures ControllerAnswers.Good(w.tables) && Lawful(c) && ValidCheckpoint(c) && StillLatest(w.tables, c)
  {
    hide Safe, Lawful, ValidCheckpoint, Latest, TablesLawful, RetriesConsumed, RowsSound, AcceptedHistory;
    SafeTables(w);
    ControllerAnswers.LatestIsLawful(w.tables, c.assemblyId);
    ControllerAnswers.ChronicleAccepted(w.tables, c.assemblyId);
  }

  /** A move of the latest checkpoint that consumes no receipt commits. */
  lemma LatestCommits(w: World, p: nat, move: Move, c: Checkpoint)
    requires Safe(w) && !At(w, p).Idle? && Latest(w.tables, At(w, p).current.assemblyId) == Some(At(w, p).current)
    requires TypedMove(move) && Next(At(w, p).current, move) == Success(c) && ConsumedBy(move).None?
    ensures Commit(w, p, move) == Moved(w.(tables := Written(w.tables, c, None)), p, After(move, c))
    ensures Latest(Commit(w, p, move).tables, c.assemblyId) == Some(c) && c.assemblyId == At(w, p).current.assemblyId
  {
    hide Safe, Next, Latest, Written, Writable, TypedMove, ControllerAnswers.Good, Lawful;
    LatestFacts(w, At(w, p).current);
    ControllerAnswers.NextIsWritable(w.tables, At(w, p).current, move, c);
    ControllerAnswers.CommitIsGood(w.tables, At(w, p).current, move, c);
  }

  /** Within a claimed advance the next slice can always be marked started. */
  lemma StartSucceeds(c: Checkpoint)
    requires Lawful(c) && c.active.Some? && c.started.None? && c.completed < c.active.value.target
    ensures Next(c, StartMove).Success?
  {
    hide Lawful, MarkStarted;
    ControllerAnswers.StartDecided(c);
  }

  /** The checkpoint after a claim, and the one after the start of its first slice. */
  lemma ClaimThenStart(c: Checkpoint, request: AdvanceRequest) returns (claimed: Checkpoint, started: Checkpoint)
    requires Lawful(c) && ControllerAnswers.Claims(c, request) && ValidAdvanceRequest(request)
    requires c.completed < TOTAL_SLICES
    ensures Next(c, ClaimMove(request)) == Success(claimed) && Next(claimed, StartMove) == Success(started)
    ensures started.started.Some? && started.completed == c.completed && Lawful(started)
    ensures claimed.assemblyId == c.assemblyId && started.assemblyId == c.assemblyId
  {
    hide Lawful, Claim, Follows;
    ControllerAnswers.ClaimSucceeds(c, request);
    claimed := Claim(c, request).value;
    ClaimedFields(c, request, claimed);
    NextKeepsLaws(c, ClaimMove(request), claimed);
    ControllerAnswers.MoveFacts(c, ClaimMove(request), claimed);
    StartSucceeds(claimed);
    started := Next(claimed, StartMove).value;
    NextKeepsLaws(claimed, StartMove, started);
    ControllerAnswers.MoveFacts(claimed, StartMove, started);
    FollowsBasics(claimed, started);
  }

  lemma ClaimedFields(c: Checkpoint, request: AdvanceRequest, claimed: Checkpoint)
    requires Claim(c, request) == Success(claimed) && c.completed < TOTAL_SLICES && ValidAdvanceRequest(request)
    ensures claimed.active.Some? && claimed.completed == c.completed && claimed.completed < claimed.active.value.target
    ensures claimed.assemblyId == c.assemblyId
  {
    hide ValidCheckpoint;
  }

  /** An idle process claims the advance and marks its first slice started. */
  lemma NextSliceIsStarted(w: World, p: nat, c: Checkpoint, request: AdvanceRequest)
    returns (last: World, started: Checkpoint)
    requires Safe(w) && At(w, p).Idle? && Latest(w.tables, c.assemblyId) == Some(c) && c.completed < TOTAL_SLICES
    requires ValidAdvanceRequest(request) && request.assemblyId == c.assemblyId && ControllerAnswers.Claims(c, request)
    ensures last == Apply(Apply(Apply(w, LoadEvent(p, request)), ClaimEvent(p)), StartEvent(p))
    ensures Safe(last) && last.calls == w.calls && At(last, p) == Started(started)
    ensures Latest(last.tables, c.assemblyId) == Some(started) && started.assemblyId == c.assemblyId
    ensures Lawful(started) && started.started.Some? && started.completed == c.completed
  {
    hide Safe, Lawful, Next, Latest, ReadsBack, ControllerAnswers.Good, ControllerAnswers.Claims, StillLatest,
      Callable, Written, Commit, Load, TypedMove;
    LatestFacts(w, c);
    var claimed;
    claimed, started := ClaimThenStart(c, request);
    LoadsLatest(w, p, c, request);
    ApplySafe(w, LoadEvent(p, request));
    var w1 := Moved(w, p, Loaded(request, c));
    TypedClaim(request);
    LatestCommits(w1, p, ClaimMove(request), claimed);
    ApplySafe(w1, ClaimEvent(p));
    var w2 := Commit(w1, p, ClaimMove(request));
    TypedStart();
    LatestCommits(w2, p, StartMove, started);
    ApplySafe(w2, StartEvent(p));
    last := Commit(w2, p, StartMove);
  }

  /** While nothing is active and slices remain, an idle process reaches the port of the next slice, once. */
  lemma NextSliceReachesItsPort(w: World, p: nat, c: Checkpoint, request: AdvanceRequest, ports: Authorities)
    requires Safe(w) && At(w, p).Idle? && Latest(w.tables, c.assemblyId) == Some(c) && c.completed < TOTAL_SLICES
    requires ValidAdvanceRequest(request) && request.assemblyId == c.assemblyId && ControllerAnswers.Claims(c, request)
    ensures var last :=
        Run(w, [LoadEvent(p, request), ClaimEvent(p), StartEvent(p), ScopeEvent(p), CallEvent(p, ports)]);
      && At(last, p).Called?
      && At(last, p).current.completed == c.completed
      && CallCount(last, c.assemblyId, c.completed) == CallCount(w, c.assemblyId, c.completed) + 1
  {
    hide Safe, Lawful, Latest, ControllerAnswers.Good, ControllerAnswers.Claims, StillLatest, Callable, Apply, Run;
    FiveSteps(w, LoadEvent(p, request), ClaimEvent(p), StartEvent(p), ScopeEvent(p), CallEvent(p, ports));
    var w3, started := NextSliceIsStarted(w, p, c, request);
    LatestFacts(w3, started);
    SliceClosing.LawfulIsCallable(started);
    ScopeThenCall(w3, p, started, ports);
  }

  lemma ScopeThenCall(w: World, p: nat, started: Checkpoint, ports: Authorities)
    requires At(w, p) == Started(started) && Callable(started) && StillLatest(w.tables, started)
    ensures var last := Apply(Apply(w, ScopeEvent(p)), CallEvent(p, ports));
      && At(last, p) == Called(started, ports)
      && CallCount(last, started.assemblyId, started.completed)
         == CallCount(w, started.assemblyId, started.completed) + 1
  {
    hide Callable, StillLatest;
    assert Apply(w, ScopeEvent(p)) == Moved(w, p, Scoped(started));
  }

  // ---------------------------------------------------------------- recovery

  /** The request resumes the active advance of this checkpoint. */
  predicate Resumes(c: Checkpoint, request: AdvanceRequest) {
    && request.assemblyId == c.assemblyId && request.requestSha == c.requestSha
    && ReceiptOf(c, request.operationId).None?
    && c.active.Some? && ControllerAnswers.ActiveMatches(c.active.value, request)
  }

  lemma LoadsStarted(w: World, p: nat, c: Checkpoint, request: AdvanceRequest)
    requires At(w, p).Idle? && StillLatest(w.tables, c) && ValidAdvanceRequest(request)
    requires Resumes(c, request) && c.started.Some?
    ensures Load(w, p, request) == Moved(w, p, Recovering(c))
  {
    hide Latest, ReadsBack, ReceiptOf;
  }

  lemma AnswerIsValid(t: Tables, scope: ReconciliationRequest, answer: Outcome)
    requires Sound(t) && ReconcileAnswer(t, scope) == Success(Some(answer))
    ensures Readable(t, scope, answer) && ValidOutcome(answer) && answer.scope == scope
    ensures answer.disposition == TerminalReadback
  {
    hide RowsSound, KeysUnique, RetriesSound, ValidOutcome;
  }

  lemma AskSteps(w: World, p: nat, c: Checkpoint, scope: ReconciliationRequest)
    requires At(w, p) == Recovering(c) && Latest(w.tables, c.assemblyId) == Some(c) && StartScope(c) == Success(scope)
    ensures Apply(w, AskEvent(p)) == Moved(w, p, Asking(c, scope))
  {
    hide Latest, ScopeOf;
  }

  lemma ReconcileSteps(w: World, p: nat, c: Checkpoint, scope: ReconciliationRequest, answer: Outcome)
    requires At(w, p) == Asking(c, scope)
    requires Readable(w.tables, scope, answer) && ValidOutcome(answer) && answer.scope == scope
    ensures Apply(w, ReconcileEvent(p, Some(answer))) == Moved(w, p, Resolved(c, answer))
  {
    hide Readable, ValidOutcome;
  }

  lemma LoadSteps(w: World, p: nat, c: Checkpoint, request: AdvanceRequest)
    requires At(w, p).Idle? && StillLatest(w.tables, c) && ValidAdvanceRequest(request)
    requires Resumes(c, request) && c.started.Some?
    ensures Apply(w, LoadEvent(p, request)) == Moved(w, p, Recovering(c))
  {
    hide StillLatest, Resumes, Load;
    LoadsStarted(w, p, c, request);
  }

  /** An idle process loads the started slice, asks for it and gets the recorded answer. */
  lemma AnswerIsResolved(
    w: World, p: nat, c: Checkpoint, request: AdvanceRequest, scope: ReconciliationRequest, answer: Outcome)
    requires Safe(w) && At(w, p).Idle? && Latest(w.tables, c.assemblyId) == Some(c) && c.started.Some?
    requires ValidAdvanceRequest(request) && Resumes(c, request) && StartScope(c) == Success(scope)
    requires Readable(w.tables, scope, answer) && ValidOutcome(answer) && answer.scope == scope
    ensures var last := Apply(Apply(Apply(w, LoadEvent(p, request)), AskEvent(p)), ReconcileEvent(p, Some(answer)));
      Safe(last) && At(last, p) == Resolved(c, answer) && last.tables == w.tables && last.calls == w.calls
  {
    hide Safe, Lawful, Latest, ControllerAnswers.Good, StillLatest, Apply, Resumes, ValidOutcome, Readable, StartScope;
    LatestFacts(w, c);
    LoadSteps(w, p, c, request);
    ApplySafe(w, LoadEvent(p, request));
    var w1 := Moved(w, p, Recovering(c));
    AskSteps(w1, p, c, scope);
    ApplySafe(w1, AskEvent(p));
    var w2 := Moved(w1, p, Asking(c, scope));
    ReconcileSteps(w2, p, c, scope, answer);
    ApplySafe(w2, ReconcileEvent(p, Some(answer)));
  }

  /** Whenever the tables answer for the started slice of the latest record, an idle process closes the
   *  slice exactly as executing it with that answer would, and no port is reached for it. */
  lemma RecordedSliceIsRecovered(
    w: World, p: nat, c: Checkpoint, request: AdvanceRequest, scope: ReconciliationRequest, answer: Outcome,
    done: Checkpoint)
    requires Safe(w) && At(w, p).Idle? && Latest(w.tables, c.assemblyId) == Some(c) && c.started.Some?
    requires ValidAdvanceRequest(request) && Resumes(c, request)
    requires StartScope(c) == Success(scope) && ReconcileAnswer(w.tables, scope) == Success(Some(answer))
    requires Next(c, ExecuteMove(answer.authorities)) == Success(done)
    ensures var last := Run(w, [LoadEvent(p, request), AskEvent(p), ReconcileEvent(p, Some(answer)), ResolveEvent(p)]);
      && Latest(last.tables, c.assemblyId) == Some(done.(outcomes := c.outcomes + [answer]))
      && last.calls == w.calls
  {
    hide Safe, Lawful, Next, Latest, ControllerAnswers.Good, Written, Commit, TypedMove, Resumes, ValidOutcome,
      Readable, ReconcileAnswer, Sound, ConsumedBy, Apply, Run, StillLatest, ValidCheckpoint;
    LatestFacts(w, c);
    SafeTables(w);
    AnswerIsValid(w.tables, scope, answer);
    FourSteps(w, LoadEvent(p, request), AskEvent(p), ReconcileEvent(p, Some(answer)), ResolveEvent(p));
    AnswerIsResolved(w, p, c, request, scope, answer);
    var w3 := Apply(Apply(Apply(w, LoadEvent(p, request)), AskEvent(p)), ReconcileEvent(p, Some(answer)));
    RecoveryRefinement.RecoveryRefinesExecution(c, answer);
    TypedReconcile(answer);
    LatestCommits(w3, p, ReconcileMove(answer), Next(c, ReconcileMove(answer)).value);
    ResolveCommits(w3, p);
  }

  lemma ResolveCommits(w: World, p: nat)
    requires At(w, p).Resolved?
    ensures Apply(w, ResolveEvent(p)) == Commit(w, p, ReconcileMove(At(w, p).answer))
  {
    hide Commit;
  }

  lemma TypedReconcile(answer: Outcome)
    requires ValidOutcome(answer) && answer.disposition == TerminalReadback
    ensures TypedMove(ReconcileMove(answer)) && ConsumedBy(ReconcileMove(answer)).None?
  {
    hide ValidOutcome;
  }

  lemma TypedClaim(request: AdvanceRequest)
    requires ValidAdvanceRequest(request)
    ensures TypedMove(ClaimMove(request)) && ConsumedBy(ClaimMove(request)).None?
  {
  }

  lemma TypedStart()
    ensures TypedMove(StartMove) && ConsumedBy(StartMove).None?
  {
  }

  lemma LoadsLatest(w: World, p: nat, c: Checkpoint, request: AdvanceRequest)
    requires At(w, p).Idle? && StillLatest(w.tables, c) && ValidAdvanceRequest(request)
    requires request.assemblyId == c.assemblyId
    requires ControllerAnswers.Claims(c, request)
    ensures Load(w, p, request) == Moved(w, p, Loaded(request, c))
  {
    hide Latest, ReadsBack, ReceiptOf;
  }

  lemma FiveSteps(w: World, a: Event, b: Event, c: Event, d: Event, e: Event)
    ensures Run(w, [a, b, c, d, e]) == Apply(Apply(Apply(Apply(Apply(w, a), b), c), d), e)
  {
    hide Apply;
    assert [a, b, c, d, e][1..] == [b, c, d, e];
    FourSteps(Apply(w, a), b, c, d, e);
  }

  lemma FourSteps(w: World, a: Event, b: Event, c: Event, d: Event)
    ensures Run(w, [a, b, c, d]) == Apply(Apply(Apply(Apply(w, a), b), c), d)
  {
    hide Apply;
    assert [a, b, c, d][1..] == [b, c, d] && [b, c, d][1..] == [c, d] && [c, d][1..] == [d] && [d][1..] == [];
    assert Run(Apply(w, a), [b, c, d]) == Run(Apply(Apply(w, a), b), [c, d]);
    assert Run(Apply(Apply(w, a), b), [c, d]) == Run(Apply(Apply(Apply(w, a), b), c), [d]);
  }
}
