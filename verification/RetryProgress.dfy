/** Outside production, where a retry may be authorized: every fresh no-effect receipt lets the started slice
 *  reach its port once more, so the bound on effect calls is attained. */
module RetryProgress {
  import opened Wrappers
  import opened AssemblyContracts
  import opened AssemblyTransitions
  import opened HistoryValidation
  import opened HistoryLaws
  import opened AuthorityLaws
  import opened ControllerRuns
  import opened AssemblyRepository
  import opened AssemblyProtocol
  import opened ProtocolSafety
  import opened ProtocolCompletion
  import opened ProtocolProgress
  import opened WriteAhead
  import AnswerAcceptance
  import ControllerAnswers

  /** The started slice was called once more than retry receipts were consumed for it. */
  ghost predicate Attained(w: World, p: nat, c: Checkpoint, n: nat) {
    && Sane(w) && !w.production && At(w, p).Idle?
    && Latest(w.tables, c.assemblyId) == Some(c) && c.started.Some?
    && CallCount(w, c.assemblyId, c.completed) == 1 + n
    && |ReceiptsFor(w.tables.retries, c.assemblyId, c.completed)| == n
  }

  lemma {:induction false} FreshReceipt(retries: map<Uuid, RetryRow>) returns (id: Uuid)
    ensures forall other :: other in retries ==> other < id
    decreases |retries|
  {
    if retries == map[] {
      id := 0;
    } else {
      var some :| some in retries;
      var rest := retries - {some};
      assert rest.Keys == retries.Keys - {some};
      id := FreshReceipt(rest);
      assert forall other :: other in retries && other != some ==> other in rest;
      if id <= some {
        id := some + 1;
      }
    }
  }

  /** A retry answer for exactly the started slice. */
  ghost function RetryAnswer(c: Checkpoint, receiptId: Uuid): Outcome
    requires c.active.Some? && c.started.Some?
  {
    var scope := AnswerAcceptance.StartedScope(c);
    Outcome(scope, RetryAuthorizedNoEffect,
            Some(RetryAuthorization(scope.assemblyId, scope.operationId, scope.requestSha, scope.startedSlice,
                                    scope.startedRef, receiptId, 0)),
            NO_AUTHORITY)
  }

  lemma RetryAnswerIsValid(c: Checkpoint, receiptId: Uuid)
    requires Lawful(c) && c.started.Some? && c.active.Some?
    ensures ValidOutcome(RetryAnswer(c, receiptId)) && TypedMove(ReconcileMove(RetryAnswer(c, receiptId)))
    ensures ConsumedBy(ReconcileMove(RetryAnswer(c, receiptId))) == RetryAnswer(c, receiptId).retry
    ensures c.started.value.ordinal == c.completed
  {
    hide ValidSubmit, ValidItem, ShapeAccepted, Lexicographic, Tiled, ItemsLawful, ResumeLawful, OutcomesPrecede;
  }

  /** A fresh retry receipt is accepted from the reconciliation port. */
  lemma RetryIsResolved(w: World, p: nat, c: Checkpoint, request: AdvanceRequest, receiptId: Uuid)
    returns (last: World)
    requires Sane(w) && !w.production && At(w, p).Idle? && Latest(w.tables, c.assemblyId) == Some(c)
    requires c.started.Some? && c.active.Some? && Lawful(c)
    requires ProtocolProgress.Resumes(c, request) && ValidAdvanceRequest(request)
    ensures var answer := RetryAnswer(c, receiptId);
      && last == Apply(Apply(Apply(w, LoadEvent(p, request)), AskEvent(p)), ReconcileEvent(p, Some(answer)))
      && At(last, p) == Resolved(c, answer) && last.tables == w.tables && last.calls == w.calls
    ensures Sane(last) && !last.production
  {
    hide Safe, Lawful, WrittenAhead, Latest, ControllerAnswers.Good, StillLatest, Apply, ProtocolProgress.Resumes,
      ValidOutcome, Readable, StartScope, AnswerAcceptance.StartedScope, TypedMove;
    LatestFacts(w, c);
    AnswerAcceptance.StartedHasScope(c);
    RetryAnswerIsValid(c, receiptId);
    var scope := AnswerAcceptance.StartedScope(c);
    LoadSteps(w, p, c, request);
    StepSane(w, LoadEvent(p, request));
    var w1 := Moved(w, p, Recovering(c));
    AskSteps(w1, p, c, scope);
    StepSane(w1, AskEvent(p));
    var w2 := Moved(w1, p, Asking(c, scope));
    AnyAnswerResolves(w2, p, c, scope, RetryAnswer(c, receiptId));
    StepSane(w2, ReconcileEvent(p, Some(RetryAnswer(c, receiptId))));
    last := Moved(w2, p, Resolved(c, RetryAnswer(c, receiptId)));
  }

  lemma AnyAnswerResolves(w: World, p: nat, c: Checkpoint, scope: ReconciliationRequest, answer: Outcome)
    requires At(w, p) == Asking(c, scope) && !w.production && ValidOutcome(answer) && answer.scope == scope
    ensures Apply(w, ReconcileEvent(p, Some(answer))) == Moved(w, p, Resolved(c, answer))
  {
    hide Readable, ValidOutcome;
  }

  /** A fresh receipt clears its slice. */
  lemma RetryWrites(t: Tables, c: Checkpoint, receiptId: Uuid) returns (cleared: Checkpoint)
    requires ControllerAnswers.Good(t) && Latest(t, c.assemblyId) == Some(c) && Lawful(c)
    requires c.active.Some? && c.started.Some? && receiptId !in t.retries
    ensures var move := ReconcileMove(RetryAnswer(c, receiptId));
      && Next(c, move) == Success(cleared) && Writable(t, cleared, c.revision, ConsumedBy(move))
      && Latest(Written(t, cleared, ConsumedBy(move)), c.assemblyId) == Some(cleared)
    ensures cleared == c.(revision := c.revision + 1, started := None, outcomes := cleared.outcomes)
  {
    hide Lawful, Latest, ControllerAnswers.Good, Next, Written, Writable, TypedMove, ValidOutcome, RetryTaken,
      ConsumedBy, AnswerAcceptance.StartedScope;
    var answer := RetryAnswer(c, receiptId);
    RetryAnswerIsValid(c, receiptId);
    AnswerAcceptance.RetryClearsIff(c, answer);
    ControllerAnswers.ReceiptIsFresh(t, c, receiptId);
    cleared := AnswerAcceptance.Cleared(c, answer);
    ControllerAnswers.NextIsWritable(t, c, ReconcileMove(answer), cleared);
    ControllerAnswers.CommitIsGood(t, c, ReconcileMove(answer), cleared);
  }

  lemma ResolvedCommit(w: World, p: nat, c: Checkpoint, receiptId: Uuid, cleared: Checkpoint)
    requires c.active.Some? && c.started.Some? && At(w, p) == Resolved(c, RetryAnswer(c, receiptId))
    requires var move := ReconcileMove(RetryAnswer(c, receiptId));
      Next(c, move) == Success(cleared) && Writable(w.tables, cleared, c.revision, ConsumedBy(move))
    ensures var move, last := ReconcileMove(RetryAnswer(c, receiptId)), Apply(w, ResolveEvent(p));
      && last == Moved(w.(tables := Written(w.tables, cleared, ConsumedBy(move))), p, Holding(cleared))
      && last.tables.retries == w.tables.retries[receiptId := RetryRow(RetryAnswer(c, receiptId).retry.value,
                                                                       cleared.assemblyId, cleared.revision)]
  {
    hide Commit, Next, Writable, AnswerAcceptance.StartedScope;
    ResolveCommits(w, p);
    CommitsAs(w, p, ReconcileMove(RetryAnswer(c, receiptId)), cleared);
  }

  /** The receipt is consumed together with the clearing of its slice. */
  lemma RetryCommits(w: World, p: nat, c: Checkpoint, receiptId: Uuid) returns (cleared: Checkpoint)
    requires Sane(w) && c.active.Some? && c.started.Some? && At(w, p) == Resolved(c, RetryAnswer(c, receiptId))
    requires Latest(w.tables, c.assemblyId) == Some(c) && Lawful(c) && receiptId !in w.tables.retries
    ensures var last := Apply(w, ResolveEvent(p));
      && Poised(last, p, cleared) && last.calls == w.calls
      && last.tables.retries == w.tables.retries[receiptId := RetryRow(RetryAnswer(c, receiptId).retry.value,
                                                                       c.assemblyId, c.revision + 1)]
    ensures cleared.active == c.active && cleared.completed == c.completed && cleared.assemblyId == c.assemblyId
  {
    hide Safe, WrittenAhead, Lawful, Latest, ControllerAnswers.Good, Next, Commit, Written, Writable, ConsumedBy, Apply,
      RetryAnswer;
    SaneIsGood(w, c);
    cleared := RetryWrites(w.tables, c, receiptId);
    StepSane(w, ResolveEvent(p));
    ResolvedCommit(w, p, c, receiptId, cleared);
  }

  lemma SaneIsGood(w: World, c: Checkpoint)
    requires Sane(w) && Latest(w.tables, c.assemblyId) == Some(c)
    ensures ControllerAnswers.Good(w.tables)
  {
    hide Safe, WrittenAhead, Lawful, Latest, ControllerAnswers.Good;
    LatestFacts(w, c);
  }

  lemma CommitsAs(w: World, p: nat, move: Move, c: Checkpoint)
    requires !At(w, p).Idle? && Next(At(w, p).current, move) == Success(c)
    requires Writable(w.tables, c, At(w, p).current.revision, ConsumedBy(move))
    ensures Commit(w, p, move) == Moved(w.(tables := Written(w.tables, c, ConsumedBy(move))), p, After(move, c))
    ensures ConsumedBy(move).Some? ==>
      Commit(w, p, move).tables.retries
      == w.tables.retries[ConsumedBy(move).value.receiptId :=
                            RetryRow(ConsumedBy(move).value, c.assemblyId, c.revision)]
  {
    hide Next, Writable;
  }

  lemma StartedFacts(w: World, c: Checkpoint)
    requires Sane(w) && Latest(w.tables, c.assemblyId) == Some(c) && c.started.Some?
    ensures Lawful(c) && c.active.Some? && c.completed < c.active.value.target
  {
    hide Safe, WrittenAhead, Lawful, Latest, ControllerAnswers.Good, ValidParts;
    LatestFacts(w, c);
  }

  /** The fresh receipt is one more for this slice. */
  lemma OneReceiptMore(retries: map<Uuid, RetryRow>, row: RetryRow, receiptId: Uuid, a: Uuid, ordinal: nat)
    requires receiptId !in retries && row.assemblyId == a && row.authorization.startedSlice.ordinal == ordinal
    ensures |ReceiptsFor(retries[receiptId := row], a, ordinal)| == |ReceiptsFor(retries, a, ordinal)| + 1
  {
    assert ReceiptsFor(retries[receiptId := row], a, ordinal) == ReceiptsFor(retries, a, ordinal) + {receiptId};
  }

  lemma CrashCounts(w: World, p: nat, c: Checkpoint)
    requires Sane(w)
    ensures var last := Apply(w, CrashEvent(p));
      && Sane(last) && last.production == w.production && At(last, p).Idle?
      && last.tables == w.tables && last.calls == w.calls
  {
    hide Safe, WrittenAhead;
    StepSane(w, CrashEvent(p));
  }

  /** From between two slices, one call, and the process may crash with its start marker left behind. */
  lemma PoisedAttains(w: World, p: nat, c: Checkpoint, n: nat) returns (events: seq<Event>, started: Checkpoint)
    requires Poised(w, p, c) && !w.production && c.active.Some? && c.completed < c.active.value.target
    requires CallCount(w, c.assemblyId, c.completed) == n
    requires |ReceiptsFor(w.tables.retries, c.assemblyId, c.completed)| == n
    ensures Attained(Run(w, events), p, started, n)
    ensures started.assemblyId == c.assemblyId && started.completed == c.completed
  {
    hide Sane, Latest, Apply, ReceiptsFor, Next, Closing;
    var called, answer;
    called, started, answer := PoisedCalls(w, p, c);
    CalledFacts(called, p, started, answer);
    CrashCounts(called, p, started);
    var first := [StartEvent(p), ScopeEvent(p), CallEvent(p, answer)];
    ThreeSteps(w, first[0], first[1], first[2]);
    OneStep(called, CrashEvent(p));
    RunOn(w, first, [CrashEvent(p)]);
    RunSane(w, first);
    events := first + [CrashEvent(p)];
  }

  lemma CalledFacts(w: World, p: nat, c: Checkpoint, answer: Authorities)
    requires Closing(w, p, Called(c, answer))
    ensures Sane(w) && Latest(w.tables, c.assemblyId) == Some(c) && c.started.Some?
  {
    hide Sane, Latest, Next, ValidAuthorities;
    ExecutedIsStarted(c, answer);
  }

  /** Outside production and while a slice may still be retried, a fresh receipt brings it to its port again. */
  lemma RetryReachesPort(w: World, p: nat, c: Checkpoint, n: nat)
    returns (events: seq<Event>, started: Checkpoint)
    requires Attained(w, p, c, n)
    ensures Attained(Run(w, events), p, started, n + 1)
    ensures started.assemblyId == c.assemblyId && started.completed == c.completed
  {
    hide Sane, Lawful, Latest, Apply, Run, ProtocolProgress.Resumes, ReceiptsFor, Poised, Closing,
      TypedMove, ValidOutcome;
    StartedFacts(w, c);
    var receiptId := FreshReceipt(w.tables.retries);
    var request := ResumingRequest(c);
    var asked := RetryIsResolved(w, p, c, request, receiptId);
    var cleared := RetryCommits(asked, p, c, receiptId);
    var answer := RetryAnswer(c, receiptId);
    var first := [LoadEvent(p, request), AskEvent(p), ReconcileEvent(p, Some(answer)), ResolveEvent(p)];
    FourSteps(w, first[0], first[1], first[2], first[3]);
    var w1 := Run(w, first);
    RetryAnswerIsValid(c, receiptId);
    OneReceiptMore(w.tables.retries, w1.tables.retries[receiptId], receiptId, c.assemblyId, c.completed);
    RunSane(w, first);
    var second;
    second, started := PoisedAttains(w1, p, cleared, n + 1);
    RunOn(w, first, second);
    events := first + second;
  }

  /** An idle process comes to stand before the next slice of an advance that has slices left. */
  lemma RestedHasNext(w: World, p: nat, c: Checkpoint) returns (events: seq<Event>, held: Checkpoint)
    requires Rested(w, p, c) && c.completed < TOTAL_SLICES
    ensures Poised(Run(w, events), p, held) && held.active.Some? && held.completed < held.active.value.target
    ensures held.assemblyId == c.assemblyId && held.completed == c.completed
    ensures Run(w, events).calls == w.calls && Run(w, events).tables.retries == w.tables.retries
  {
    hide Rested, Poised, Apply, Run;
    events, held := RestedIsPoised(w, p, c);
    var w1 := Run(w, events);
    PoisedBounds(w1, p, held);
    if held.completed == held.active.value.target {
      PoisedStarted(w1, p, held);
      var closed := AdvanceCloses(w1, p, held);
      OneStep(w1, FinishEvent(p));
      RunOn(w, events, [FinishEvent(p)]);
      var more;
      more, held := RestedIsPoised(Apply(w1, FinishEvent(p)), p, closed);
      RunOn(w, events + [FinishEvent(p)], more);
      events := events + [FinishEvent(p)] + more;
    }
  }

  lemma PoisedStarted(w: World, p: nat, c: Checkpoint)
    requires Poised(w, p, c)
    ensures c.active.Some?
  {
  }

  /** Any number of retries can be attained, each with its own call. */
  lemma {:induction false} AttainedAgain(w: World, p: nat, c: Checkpoint, k: nat, n: nat)
    returns (events: seq<Event>, started: Checkpoint)
    requires Attained(w, p, c, k) && k <= n
    ensures Attained(Run(w, events), p, started, n)
    ensures started.assemblyId == c.assemblyId && started.completed == c.completed
    decreases n - k
  {
    hide Attained, Apply;
    if k == n {
      events, started := [], c;
    } else {
      var first, again := RetryReachesPort(w, p, c, k);
      var rest;
      rest, started := AttainedAgain(Run(w, first), p, again, k + 1, n);
      RunOn(w, first, rest);
      events := first + rest;
    }
  }

  /** The bound on effect calls is tight: outside production, a slice that nothing has been done for can be called
   *  one plus n times with n retry receipts consumed, for every n. */
  lemma BoundIsAttained(events: seq<Event>, c: Checkpoint, n: nat) returns (more: seq<Event>)
    requires var w := Reached(false, events);
      && Latest(w.tables, c.assemblyId) == Some(c) && c.started.None? && c.completed < TOTAL_SLICES
      && CallCount(w, c.assemblyId, c.completed) == 0 && ReceiptsFor(w.tables.retries, c.assemblyId, c.completed) == {}
    ensures var last := Run(Reached(false, events), more);
      && CallCount(last, c.assemblyId, c.completed) == 1 + n
      && |ReceiptsFor(last.tables.retries, c.assemblyId, c.completed)| == n
  {
    hide Sane, Reached, Latest, Apply, Run, ReceiptsFor, Poised;
    var w := Reached(false, events);
    ReachedSane(false, events);
    CrashCounts(w, 0, c);
    OneStep(w, CrashEvent(0));
    var w1 := Apply(w, CrashEvent(0));
    var first, held := RestedHasNext(w1, 0, c);
    RunSane(w1, first);
    var second, started := PoisedAttains(Run(w1, first), 0, held, 0);
    var third, last := AttainedAgain(Run(Run(w1, first), second), 0, started, 0, n);
    RunOn(w, [CrashEvent(0)], first);
    RunOn(w, [CrashEvent(0)] + first, second);
    RunOn(w, [CrashEvent(0)] + first + second, third);
    more := [CrashEvent(0)] + first + second + third;
  }
}
