/** Whether an assembly can still be completed: always while no slice is started, and from a start marker
 *  that a crash left behind exactly when its result was recorded. */
module ProtocolCompletion {
  import opened Wrappers
  import opened AssemblyContracts
  import opened AssemblyTransitions
  import opened ControllerRuns
  import opened AssemblyRepository
  import opened AssemblyProtocol
  import opened ProtocolSafety
  import opened ProtocolProgress
  import opened WriteAhead
  import ControllerAnswers
  import FinalEvidence
  import RecoveryRefinement
  import SliceClosing

  /** What every reachable world keeps. */
  ghost predicate Sane(w: World) {
    Safe(w) && (w.production ==> WrittenAhead(w))
  }

  lemma StepSane(w: World, e: Event)
    requires Sane(w)
    ensures Sane(Apply(w, e)) && Apply(w, e).production == w.production
  {
    hide Safe, WrittenAhead, Apply;
    ApplySafe(w, e);
    StepKeepsMode(w, e);
    if w.production {
      ApplyAhead(w, e);
    }
  }

  lemma StepKeepsMode(w: World, e: Event)
    ensures Apply(w, e).production == w.production
  {
    hide Admission, Next, Writable, Latest, ReadsBack, Callable, StillLatest, ValidOutcome, Readable, StartScope,
      EffectOutcome, TerminalOutcome, ValidAdvanceRequest;
  }

  lemma {:induction false} RunSane(w: World, events: seq<Event>)
    requires Sane(w)
    ensures Sane(Run(w, events)) && Run(w, events).production == w.production
    decreases |events|
  {
    hide Sane, Apply;
    if events != [] {
      StepSane(w, events[0]);
      RunSane(Apply(w, events[0]), events[1..]);
    }
  }

  lemma ReachedSane(production: bool, events: seq<Event>)
    ensures Sane(Reached(production, events)) && Reached(production, events).production == production
  {
    hide Safe, WrittenAhead;
    GenesisSafe(production);
    ProductionAhead([]);
    RunSane(Genesis(production), events);
  }

  lemma {:induction false} RunOn(w: World, first: seq<Event>, second: seq<Event>)
    ensures Run(w, first + second) == Run(Run(w, first), second)
    decreases |first|
  {
    hide Apply;
    if first == [] {
      assert first + second == second;
    } else {
      assert (first + second)[1..] == first[1..] + second;
      RunOn(Apply(w, first[0]), first[1..], second);
    }
  }

  // ---------------------------------------------------------------- one slice

  /** The process stands between slices on the latest record of its advance. */
  ghost predicate Poised(w: World, p: nat, c: Checkpoint) {
    && Sane(w) && At(w, p) == Holding(c) && Latest(w.tables, c.assemblyId) == Some(c)
    && c.active.Some? && c.started.None?
  }

  /** The process owns the start marker that is the latest record, and its answer closes the slice. */
  ghost predicate Closing(w: World, p: nat, l: Local) {
    && Sane(w) && At(w, p) == l && (l.Called? || l.Received? || l.Confirmed? || l.Recorded?)
    && Latest(w.tables, l.current.assemblyId) == Some(l.current)
    && ValidAuthorities(l.ports) && Next(l.current, ExecuteMove(l.ports)).Success?
  }

  lemma PoisedFacts(w: World, p: nat, c: Checkpoint)
    requires Poised(w, p, c)
    ensures Safe(w) && Lawful(c)
  {
    hide Safe, Lawful, WrittenAhead, Latest;
    LatestFacts(w, c);
  }

  /** From between two slices to the port, with an answer of the port's choice that will be accepted. */
  lemma PoisedCalls(w: World, p: nat, c: Checkpoint) returns (last: World, started: Checkpoint, answer: Authorities)
    requires Poised(w, p, c) && c.completed < c.active.value.target
    ensures last == Apply(Apply(Apply(w, StartEvent(p)), ScopeEvent(p)), CallEvent(p, answer))
    ensures Closing(last, p, Called(started, answer))
    ensures started.active == c.active && started.completed == c.completed && started.assemblyId == c.assemblyId
    ensures started.active.Some?
    ensures CallCount(last, c.assemblyId, c.completed) == CallCount(w, c.assemblyId, c.completed) + 1
    ensures last.tables.retries == w.tables.retries
  {
    hide Safe, Lawful, WrittenAhead, Latest, Next, Commit, Apply, Callable, StillLatest, Written, TypedMove,
      ControllerAnswers.Good, ValidAuthorities;
    PoisedFacts(w, p, c);
    WrittenKeepsRetries(w.tables);
    StartSucceeds(c);
    started := Next(c, StartMove).value;
    TypedStart();
    LatestCommits(w, p, StartMove, started);
    StartsByCommit(w, p);
    NextKeepsLaws(c, StartMove, started);
    ControllerAnswers.MoveFacts(c, StartMove, started);
    StartFields(c, started);
    StepSane(w, StartEvent(p));
    var w1 := Apply(w, StartEvent(p));
    LatestFacts(w1, started);
    SliceClosing.LawfulIsCallable(started);
    answer := SliceClosing.SliceIsAnswerable(started);
    ScopeThenCall(w1, p, started, answer);
    StepSane(w1, ScopeEvent(p));
    last := Apply(Apply(w1, ScopeEvent(p)), CallEvent(p, answer));
    StepSane(Apply(w1, ScopeEvent(p)), CallEvent(p, answer));
    CallKeepsTables(w1, p, answer);
  }

  lemma WrittenKeepsRetries(t: Tables)
    ensures forall c :: Written(t, c, None).retries == t.retries
  {
  }

  lemma StartsByCommit(w: World, p: nat)
    requires At(w, p).Holding?
    ensures Apply(w, StartEvent(p)) == Commit(w, p, StartMove)
  {
    hide Commit;
  }

  lemma CallKeepsTables(w: World, p: nat, answer: Authorities)
    ensures Apply(Apply(w, ScopeEvent(p)), CallEvent(p, answer)).tables == w.tables
  {
    hide Callable, StillLatest;
  }

  lemma OwnerFacts(w: World, p: nat, l: Local)
    requires Closing(w, p, l)
    ensures Safe(w) && Lawful(l.current) && l.current.started.Some? && StartScope(l.current).Success?
    ensures w.production ==> LocalDurable(w.tables.effects, w.tables.terminal, l)
  {
    hide Safe, Lawful, WrittenAhead, Latest, Next, ValidAuthorities, StartScope, LocalDurable;
    LatestFacts(w, l.current);
    ExecutedIsStarted(l.current, l.ports);
    StartHasScope(l.current);
    if w.production {
      UsedMarker(w, p);
    }
  }

  lemma ExecutedIsStarted(c: Checkpoint, answer: Authorities)
    requires Next(c, ExecuteMove(answer)).Success?
    ensures c.started.Some?
  {
    hide ExecuteSlice;
  }

  lemma FreeKeyIsRecordable(t: Tables, which: ReadbackTable, outcome: Outcome)
    requires KeyOf(outcome.scope) !in TableOf(t, which) && outcome.disposition == TerminalReadback
    ensures Recordable(t, which, outcome.scope, outcome)
  {
  }

  lemma RecordKeepsLatest(t: Tables, which: ReadbackTable, outcome: Outcome, a: Uuid)
    ensures Latest(AssemblyRepository.Recorded(t, which, outcome), a) == Latest(t, a)
  {
  }

  /** In production the adapter files its receipt, which its table cannot refuse. */
  lemma EffectIsFiled(w: World, p: nat, c: Checkpoint, answer: Authorities)
    requires Closing(w, p, Called(c, answer))
    ensures Closing(Apply(w, RecordEffectEvent(p)), p, Received(c, answer))
  {
    hide Safe, Lawful, WrittenAhead, Latest, Next, ValidAuthorities, TerminalOutcome, ValidOutcome, PortField,
      Recordable, AssemblyRepository.Recorded, StartScope, KeyOf;
    StepSane(w, RecordEffectEvent(p));
    OwnerFacts(w, p, Called(c, answer));
    if w.production && c.completed < INPUT_SLICES {
      var done, scope := Next(c, ExecuteMove(answer)).value, StartScope(c).value;
      TerminalRecordIsValid(c, answer, done);
      EffectIsTerminalOutcome(c, answer, done, scope);
      FreeKeyIsRecordable(w.tables, EffectReceipts, EffectOutcome(scope, answer));
      RecordKeepsLatest(w.tables, EffectReceipts, EffectOutcome(scope, answer), c.assemblyId);
    }
  }

  lemma AnswerIsConfirmed(w: World, p: nat, c: Checkpoint, answer: Authorities)
    requires Closing(w, p, Received(c, answer))
    ensures Closing(Apply(w, ConfirmEvent(p)), p, Confirmed(c, answer))
  {
    hide Safe, Lawful, WrittenAhead, Latest, Next, ValidAuthorities, StillLatest;
    StepSane(w, ConfirmEvent(p));
    OwnerFacts(w, p, Received(c, answer));
    LatestFacts(w, c);
  }

  /** In production the result is recorded as terminal, which its table cannot refuse either. */
  lemma TerminalIsFiled(w: World, p: nat, c: Checkpoint, answer: Authorities)
    requires Closing(w, p, Confirmed(c, answer))
    ensures Closing(Apply(w, RecordTerminalEvent(p)), p, Local.Recorded(c, answer))
  {
    hide Safe, Lawful, WrittenAhead, Latest, Next, ValidAuthorities, StoredAuthority, ValidOutcome, EffectOutcome,
      Recordable, AssemblyRepository.Recorded, StartScope, KeyOf;
    StepSane(w, RecordTerminalEvent(p));
    OwnerFacts(w, p, Confirmed(c, answer));
    if w.production {
      var done, scope := Next(c, ExecuteMove(answer)).value, StartScope(c).value;
      TerminalRecordIsValid(c, answer, done);
      FreeKeyIsRecordable(w.tables, TerminalReadbacks, TerminalOutcome(scope, done));
      RecordKeepsLatest(w.tables, TerminalReadbacks, TerminalOutcome(scope, done), c.assemblyId);
    }
  }

  lemma ResultIsWritten(w: World, p: nat, c: Checkpoint, answer: Authorities) returns (done: Checkpoint)
    requires Closing(w, p, Local.Recorded(c, answer)) && c.active.Some?
    ensures Next(c, ExecuteMove(answer)) == Success(done)
    ensures Poised(Apply(w, CompleteEvent(p)), p, done)
    ensures done.completed == c.completed + 1 && done.active == c.active && done.assemblyId == c.assemblyId
  {
    hide Safe, Lawful, WrittenAhead, Latest, Next, ValidAuthorities, Commit, Written, Follows;
    done := Next(c, ExecuteMove(answer)).value;
    StepSane(w, CompleteEvent(p));
    OwnerFacts(w, p, Local.Recorded(c, answer));
    CompletesByCommit(w, p);
    LatestCommits(w, p, ExecuteMove(answer), done);
    ControllerAnswers.MoveFacts(c, ExecuteMove(answer), done);
    NextKeepsLaws(c, ExecuteMove(answer), done);
    FollowsBasics(c, done);
  }

  lemma CompletesByCommit(w: World, p: nat)
    requires At(w, p).Recorded?
    ensures Apply(w, CompleteEvent(p)) == Commit(w, p, ExecuteMove(At(w, p).ports))
  {
    hide Commit;
  }

  lemma ClosingCloses(w: World, p: nat, c: Checkpoint, answer: Authorities) returns (last: World, done: Checkpoint)
    requires Closing(w, p, Called(c, answer)) && c.active.Some?
    ensures last == Apply(Apply(Apply(Apply(w, RecordEffectEvent(p)), ConfirmEvent(p)), RecordTerminalEvent(p)),
                          CompleteEvent(p))
    ensures Poised(last, p, done)
    ensures done.completed == c.completed + 1 && done.active == c.active && done.assemblyId == c.assemblyId
  {
    hide Closing, Poised, Apply;
    EffectIsFiled(w, p, c, answer);
    var w1 := Apply(w, RecordEffectEvent(p));
    AnswerIsConfirmed(w1, p, c, answer);
    var w2 := Apply(w1, ConfirmEvent(p));
    TerminalIsFiled(w2, p, c, answer);
    var w3 := Apply(w2, RecordTerminalEvent(p));
    done := ResultIsWritten(w3, p, c, answer);
    last := Apply(w3, CompleteEvent(p));
  }

  /** A process between two slices of an advance that has slices left can close the next one. */
  lemma SliceCloses(w: World, p: nat, c: Checkpoint) returns (events: seq<Event>, done: Checkpoint)
    requires Poised(w, p, c) && c.completed < c.active.value.target
    ensures Poised(Run(w, events), p, done)
    ensures done.completed == c.completed + 1 && done.active == c.active && done.assemblyId == c.assemblyId
  {
    hide Poised, Closing, Apply;
    var called, started, answer := PoisedCalls(w, p, c);
    var last;
    last, done := ClosingCloses(called, p, started, answer);
    events := [StartEvent(p), ScopeEvent(p), CallEvent(p, answer)]
      + [RecordEffectEvent(p), ConfirmEvent(p), RecordTerminalEvent(p), CompleteEvent(p)];
    RunOn(w, events[..3], events[3..]);
    ThreeSteps(w, StartEvent(p), ScopeEvent(p), CallEvent(p, answer));
    FourSteps(called, RecordEffectEvent(p), ConfirmEvent(p), RecordTerminalEvent(p), CompleteEvent(p));
  }

  lemma StartFields(c: Checkpoint, started: Checkpoint)
    requires c.active.Some? && c.completed < c.active.value.target && Next(c, StartMove) == Success(started)
    ensures started.active == c.active && started.completed == c.completed && started.assemblyId == c.assemblyId
  {
    hide ValidCheckpoint, SliceFor;
  }

  lemma ThreeSteps(w: World, a: Event, b: Event, c: Event)
    ensures Run(w, [a, b, c]) == Apply(Apply(Apply(w, a), b), c)
  {
    hide Apply;
    assert [a, b, c][1..] == [b, c] && [b, c][1..] == [c] && [c][1..] == [];
    assert Run(Apply(w, a), [b, c]) == Run(Apply(Apply(w, a), b), [c]);
  }

  // ---------------------------------------------------------------- one advance

  /** The process is idle, and no slice is started on the latest record. */
  ghost predicate Rested(w: World, p: nat, c: Checkpoint) {
    Sane(w) && At(w, p).Idle? && Latest(w.tables, c.assemblyId) == Some(c) && c.started.None?
  }

  lemma FinishFields(c: Checkpoint)
    requires Finish(c).Success?
    ensures var done := Finish(c).value;
      && done.active.None? && done.started == c.started && done.completed == c.completed
      && done.assemblyId == c.assemblyId
  {
    hide ValidCheckpoint;
  }

  /** An advance that reached its target can be closed. */
  lemma TargetCloses(w: World, c: Checkpoint) returns (done: Checkpoint)
    requires Safe(w) && Latest(w.tables, c.assemblyId) == Some(c) && c.active.Some? && c.started.None?
    requires c.active.value.target <= c.completed
    ensures Next(c, FinishMove) == Success(done)
    ensures done.active.None? && done.started.None? && done.completed == c.completed && done.assemblyId == c.assemblyId
  {
    hide Safe, Lawful, Latest, Next, Finish, ControllerAnswers.Good;
    LatestFacts(w, c);
    ControllerAnswers.FinishPasses(w.tables, c);
    done := Finish(c).value;
    FinishFields(c);
  }

  lemma AdvanceCloses(w: World, p: nat, c: Checkpoint) returns (last: Checkpoint)
    requires Poised(w, p, c) && c.active.value.target <= c.completed
    ensures Rested(Apply(w, FinishEvent(p)), p, last)
    ensures last.active.None? && last.completed == c.completed && last.assemblyId == c.assemblyId
    ensures Apply(w, FinishEvent(p)).calls == w.calls
    ensures Apply(w, FinishEvent(p)).tables.retries == w.tables.retries
  {
    hide Safe, Lawful, WrittenAhead, Latest, Next, Commit, Written;
    WrittenKeepsRetries(w.tables);
    StepSane(w, FinishEvent(p));
    last := TargetCloses(w, c);
    FinishesByCommit(w, p);
    LatestCommits(w, p, FinishMove, last);
  }

  lemma FinishesByCommit(w: World, p: nat)
    requires At(w, p).Holding?
    ensures Apply(w, FinishEvent(p)) == Commit(w, p, FinishMove)
  {
    hide Commit;
  }

  lemma PoisedBounds(w: World, p: nat, c: Checkpoint)
    requires Poised(w, p, c)
    ensures c.active.Some? && c.completed <= c.active.value.target <= TOTAL_SLICES
  {
    hide Sane, Lawful, Latest;
    PoisedFacts(w, p, c);
    ControllerAnswers.ActiveFacts(c);
  }

  /** Slice by slice to the target of the advance, and its receipt. */
  lemma {:induction false} AdvanceRuns(w: World, p: nat, c: Checkpoint)
    returns (events: seq<Event>, last: Checkpoint)
    requires Poised(w, p, c)
    ensures Rested(Run(w, events), p, last) && last.active.None? && last.assemblyId == c.assemblyId
    ensures c.active.Some? && last.completed == c.active.value.target
    decreases c.active.value.target - c.completed
  {
    hide Poised, Rested, Apply, Latest;
    PoisedBounds(w, p, c);
    if c.completed == c.active.value.target {
      events := [FinishEvent(p)];
      last := AdvanceCloses(w, p, c);
      assert events[1..] == [];
    } else {
      var first, done := SliceCloses(w, p, c);
      var rest;
      rest, last := AdvanceRuns(Run(w, first), p, done);
      events := first + rest;
      RunOn(w, first, rest);
    }
  }

  // ---------------------------------------------------------------- all slices

  lemma {:induction false} FreshOperation(receipts: seq<AdvanceReceipt>) returns (id: Uuid)
    ensures forall i :: 0 <= i < |receipts| ==> receipts[i].operationId < id
  {
    if receipts == [] {
      id := 0;
    } else {
      var n := |receipts| - 1;
      id := FreshOperation(receipts[..n]);
      assert forall i :: 0 <= i < n ==> receipts[..n][i] == receipts[i];
      if receipts[n].operationId >= id {
        id := receipts[n].operationId + 1;
      }
    }
  }

  /** An idle process takes up the active advance, or a new one of eight slices. */
  lemma RestedIsPoised(w: World, p: nat, c: Checkpoint) returns (events: seq<Event>, held: Checkpoint)
    requires Rested(w, p, c) && (c.active.Some? || c.completed < TOTAL_SLICES)
    ensures Poised(Run(w, events), p, held) && held.assemblyId == c.assemblyId && held.completed == c.completed
    ensures held.active.Some? && (c.active.None? ==> held.completed < held.active.value.target)
    ensures Run(w, events).calls == w.calls && Run(w, events).tables.retries == w.tables.retries
  {
    hide Rested, Poised, Apply;
    if c.active.Some? {
      held := c;
      events := HoldsAgain(w, p, c);
    } else {
      events, held := ClaimsNew(w, p, c);
    }
  }

  /** The request of the active advance resumes it. */
  lemma ResumingRequest(c: Checkpoint) returns (request: AdvanceRequest)
    requires Lawful(c) && c.active.Some?
    ensures Resumes(c, request) && ValidAdvanceRequest(request)
  {
    hide Lawful, ReceiptOf;
    ControllerAnswers.ActiveFacts(c);
    ControllerAnswers.ActiveIsFresh(c);
    var active := c.active.value;
    request := AdvanceRequest(c.assemblyId, active.operationId, active.requestSha, active.maximum);
  }

  lemma HoldsAgain(w: World, p: nat, c: Checkpoint) returns (events: seq<Event>)
    requires Rested(w, p, c) && c.active.Some?
    ensures Poised(Run(w, events), p, c)
    ensures Run(w, events).calls == w.calls && Run(w, events).tables.retries == w.tables.retries
  {
    hide Safe, Lawful, WrittenAhead, Latest, StillLatest, Apply, Run, Resumes;
    LatestFacts(w, c);
    var request := ResumingRequest(c);
    LoadsHeld(w, p, c, request);
    StepSane(w, LoadEvent(p, request));
    events := [LoadEvent(p, request)];
    OneStep(w, events[0]);
  }

  lemma LoadsHeld(w: World, p: nat, c: Checkpoint, request: AdvanceRequest)
    requires At(w, p).Idle? && StillLatest(w.tables, c) && ValidAdvanceRequest(request)
    requires Resumes(c, request) && c.started.None?
    ensures Apply(w, LoadEvent(p, request)) == Moved(w, p, Holding(c))
  {
    hide Latest, ReadsBack, ReceiptOf;
  }

  lemma ClaimsNew(w: World, p: nat, c: Checkpoint) returns (events: seq<Event>, claimed: Checkpoint)
    requires Rested(w, p, c) && c.active.None? && c.completed < TOTAL_SLICES
    ensures Poised(Run(w, events), p, claimed)
    ensures claimed.assemblyId == c.assemblyId && claimed.completed == c.completed
    ensures claimed.active.Some? && claimed.completed < claimed.active.value.target
    ensures Run(w, events).calls == w.calls && Run(w, events).tables.retries == w.tables.retries
  {
    hide Safe, Lawful, WrittenAhead, Latest, StillLatest, Load, Commit, Claim, Next, Written;
    LatestFacts(w, c);
    WrittenKeepsRetries(w.tables);
    var id := FreshOperation(c.receipts);
    var request := AdvanceRequest(c.assemblyId, id, c.requestSha, 8);
    LoadsLatest(w, p, c, request);
    StepSane(w, LoadEvent(p, request));
    var w1 := Moved(w, p, Loaded(request, c));
    ControllerAnswers.ClaimSucceeds(c, request);
    claimed := Claim(c, request).value;
    ClaimedFields(c, request, claimed);
    TypedClaim(request);
    LatestCommits(w1, p, ClaimMove(request), claimed);
    ControllerAnswers.MoveFacts(c, ClaimMove(request), claimed);
    StepSane(w1, ClaimEvent(p));
    events := [LoadEvent(p, request), ClaimEvent(p)];
    TwoSteps(w, events[0], events[1]);
    ClaimsByCommit(w1, p);
  }

  lemma ClaimsByCommit(w: World, p: nat)
    requires At(w, p).Loaded?
    ensures Apply(w, ClaimEvent(p)) == Commit(w, p, ClaimMove(At(w, p).request))
  {
    hide Commit;
  }

  lemma OneStep(w: World, a: Event)
    ensures Run(w, [a]) == Apply(w, a)
  {
    hide Apply;
    assert [a][1..] == [];
  }

  lemma TwoSteps(w: World, a: Event, b: Event)
    ensures Run(w, [a, b]) == Apply(Apply(w, a), b)
  {
    hide Apply;
    assert [a, b][1..] == [b] && [b][1..] == [];
    assert Run(Apply(w, a), [b]) == Apply(Apply(w, a), b);
  }

  lemma RestedBounds(w: World, p: nat, c: Checkpoint)
    requires Rested(w, p, c)
    ensures c.completed <= TOTAL_SLICES
  {
    hide Safe, Lawful, WrittenAhead, Latest, ValidParts;
    LatestFacts(w, c);
  }

  /** While no slice is started, an idle process can complete the assembly. */
  lemma {:induction false} RestedCompletes(w: World, p: nat, c: Checkpoint)
    returns (events: seq<Event>, last: Checkpoint)
    requires Rested(w, p, c)
    ensures Rested(Run(w, events), p, last) && last.assemblyId == c.assemblyId
    ensures last.completed == TOTAL_SLICES && last.active.None?
    decreases TOTAL_SLICES - c.completed, c.active.Some?
  {
    hide Rested, Poised, Apply;
    RestedBounds(w, p, c);
    if c.active.None? && c.completed == TOTAL_SLICES {
      events, last := [], c;
    } else {
      var taken, held := RestedIsPoised(w, p, c);
      PoisedBounds(Run(w, taken), p, held);
      var ran, done := AdvanceRuns(Run(w, taken), p, held);
      var rest;
      rest, last := RestedCompletes(Run(Run(w, taken), ran), p, done);
      RunOn(w, taken, ran);
      RunOn(w, taken + ran, rest);
      events := taken + ran + rest;
    }
  }

  // ---------------------------------------------------------------- a start marker that no process owns

  /** The latest record is a started slice, and no process is working on it. */
  ghost predicate Orphaned(w: World, c: Checkpoint) {
    && Latest(w.tables, c.assemblyId) == Some(c) && c.started.Some?
    && forall p :: p in w.locals && Owns(w.locals[p]) ==> w.locals[p].current != c
  }

  /** The tables answer for the started slice, with an answer that the controller's checks accept. */
  ghost predicate Answered(t: Tables, c: Checkpoint) {
    && StartScope(c).Success?
    && var found := ReconcileAnswer(t, StartScope(c).value);
    && found.Success? && found.value.Some?
    && Next(c, ExecuteMove(found.value.value.authorities)).Success?
  }

  lemma OtherLatest(t: Tables, c: Checkpoint, authorization: Option<RetryAuthorization>, a: Uuid)
    requires c.assemblyId != a
    ensures Latest(Written(t, c, authorization), a) == Latest(t, a)
    ensures Written(t, c, authorization).effects == t.effects && Written(t, c, authorization).terminal == t.terminal
  {
  }

  lemma SameAnswers(t: Tables, t': Tables, c: Checkpoint)
    requires StartScope(c).Success?
    requires var key := StartKey(c);
      && (key in t'.effects <==> key in t.effects) && (key in t.effects ==> t'.effects[key] == t.effects[key])
      && (key in t'.terminal <==> key in t.terminal) && (key in t.terminal ==> t'.terminal[key] == t.terminal[key])
    ensures Answered(t', c) == Answered(t, c)
  {
    hide Next, ScopeOf, KeyOf;
  }

  /** Only the record at the head of its assembly can be followed by another. */
  lemma WritersHoldTheHead(w: World, p: nat, move: Move, c: Checkpoint, next: Checkpoint)
    requires Safe(w) && !At(w, p).Idle? && Latest(w.tables, c.assemblyId) == Some(c)
    requires Next(At(w, p).current, move) == Success(next) && TypedMove(move)
    requires Writable(w.tables, next, At(w, p).current.revision, ConsumedBy(move))
    ensures next.assemblyId == At(w, p).current.assemblyId
    ensures next.assemblyId == c.assemblyId ==> At(w, p).current == c
  {
    hide Safe, Next, Lawful, Follows, RowsSound, TypedMove, KeyTaken, RetryTaken;
    var current := At(w, p).current;
    LocalIsStored(w, p);
    StoredIsLawful(w.tables, current);
    NextKeepsLaws(current, move, next);
    FollowsBasics(current, next);
    SafeTables(w);
    if next.assemblyId == c.assemblyId {
      ControllerAnswers.HeadOfLatest(w.tables, c);
    }
  }

  /** On an orphaned marker a process has no move, but for an answer that the tables gave it. */
  lemma OrphanHasNoMove(w: World, p: nat, move: Move, c: Checkpoint)
    requires Sane(w) && w.production && Orphaned(w, c)
    requires !At(w, p).Idle? && At(w, p).current == c && FromLocal(At(w, p), move) && TypedMove(move)
    requires Next(c, move).Success?
    ensures Answered(w.tables, c)
  {
    hide Safe, WrittenAhead, Lawful, Latest, Next, ValidOutcome, Readable, Agreement, Answered;
    LatestFacts(w, c);
    ControllerAnswers.ClaimsFromRest(c);
    ResolvedMove(w, p, move, c);
    ResolvedIsReadable(w, p);
    ReadAnswerCloses(w.tables, c, move.answer);
  }

  lemma ResolvedIsReadable(w: World, p: nat)
    requires WrittenAhead(w) && At(w, p).Resolved?
    ensures Agreement(w.tables) && Readable(w.tables, At(w, p).answer.scope, At(w, p).answer)
  {
    hide NoRetryRecorded, KeysSpent, LocalDurable, CompletionsDurable, Readable, Agreement;
  }

  lemma ReadAnswerCloses(t: Tables, c: Checkpoint, answer: Outcome)
    requires Agreement(t) && Readable(t, answer.scope, answer) && Lawful(c) && ValidOutcome(answer)
    requires Next(c, ReconcileMove(answer)).Success?
    ensures Answered(t, c)
  {
    hide Agreement, Readable, Lawful, Next, ValidOutcome, ReconcileAnswer, TerminalOutcome;
    ReadableIsTerminal(t, answer);
    StoredIsAnswer(c, answer, Next(c, ReconcileMove(answer)).value);
    RecoveryRefinement.RecoveryRefinesExecution(c, answer);
    AgreedAnswer(t, answer.scope, answer);
  }

  lemma ResolvedMove(w: World, p: nat, move: Move, c: Checkpoint)
    requires Orphaned(w, c) && !At(w, p).Idle? && At(w, p).current == c && FromLocal(At(w, p), move)
    requires Next(c, move).Success? && c.active.Some?
    ensures move.ReconcileMove?
  {
    hide Latest, ExecuteSlice, AssemblyTransitions.Reconcile, ValidCheckpoint, SliceFor;
  }

  lemma QuietKeepsOrphan(w: World, p: nat, l: Local, c: Checkpoint)
    requires Orphaned(w, c) && (Owns(l) ==> Owns(At(w, p)) && l.current == At(w, p).current)
    ensures Orphaned(Moved(w, p, l), c)
  {
    hide Latest;
  }

  lemma CommitKeepsOrphan(w: World, p: nat, move: Move, c: Checkpoint)
    requires Sane(w) && w.production && Orphaned(w, c) && !Answered(w.tables, c)
    requires !At(w, p).Idle? && FromLocal(At(w, p), move) && TypedMove(move)
    ensures Orphaned(Commit(w, p, move), c) && !Answered(Commit(w, p, move).tables, c)
  {
    hide Safe, WrittenAhead, Next, Latest, Writable, Written, TypedMove, FromLocal, Answered;
    var current := At(w, p).current;
    var next := Next(current, move);
    QuietKeepsOrphan(w, p, Idle, c);
    if next.Success? && Writable(w.tables, next.value, current.revision, ConsumedBy(move)) {
      WritersHoldTheHead(w, p, move, c, next.value);
      if current == c {
        OrphanHasNoMove(w, p, move, c);
      }
      OtherCommitKeepsOrphan(w, p, move, c, next.value);
    }
  }

  lemma OtherCommitKeepsOrphan(w: World, p: nat, move: Move, c: Checkpoint, next: Checkpoint)
    requires Orphaned(w, c) && next.assemblyId != c.assemblyId
    ensures var w' := Moved(w.(tables := Written(w.tables, next, ConsumedBy(move))), p, After(move, next));
      Orphaned(w', c) && Answered(w'.tables, c) == Answered(w.tables, c)
  {
    hide Latest, Written, ReconcileAnswer;
    OtherLatest(w.tables, next, ConsumedBy(move), c.assemblyId);
    if StartScope(c).Success? {
      SameAnswers(w.tables, Written(w.tables, next, ConsumedBy(move)), c);
    }
  }

  /** An owner of another marker records under another key. */
  lemma RecordKeepsOrphan(w: World, p: nat, which: ReadbackTable, outcome: Outcome, l: Local, c: Checkpoint)
    requires Orphaned(w, c) && Owns(At(w, p)) && StartScope(At(w, p).current) == Success(outcome.scope)
    requires Owns(l) && l.current == At(w, p).current
    ensures var w' := Moved(w.(tables := AssemblyRepository.Recorded(w.tables, which, outcome)), p, l);
      Orphaned(w', c) && Answered(w'.tables, c) == Answered(w.tables, c)
  {
    hide Latest, AssemblyRepository.Recorded, StartScope, Answered;
    RecordKeepsLatest(w.tables, which, outcome, c.assemblyId);
    OtherKeyAnswers(w.tables, which, outcome, At(w, p).current, c);
  }

  lemma OtherKeyAnswers(t: Tables, which: ReadbackTable, outcome: Outcome, owned: Checkpoint, c: Checkpoint)
    requires StartScope(owned) == Success(outcome.scope) && owned != c
    ensures Answered(AssemblyRepository.Recorded(t, which, outcome), c) == Answered(t, c)
  {
    hide AssemblyRepository.Recorded, StartScope, ReconcileAnswer, Next;
    RecordedElsewhere(t, which, outcome);
    KeyOfStart(owned);
    if StartScope(c).Success? {
      KeyOfStart(c);
      SameAnswers(t, AssemblyRepository.Recorded(t, which, outcome), c);
    }
  }

  /** No event moves an assembly off an orphaned marker that the tables do not answer for. */
  lemma StepKeepsOrphan(w: World, e: Event, c: Checkpoint)
    requires Sane(w) && w.production && Orphaned(w, c) && !Answered(w.tables, c)
    ensures Orphaned(Apply(w, e), c) && !Answered(Apply(w, e).tables, c)
  {
    hide Sane, Orphaned, Answered, Submit, Load, Commit, Scope, Call, RecordEffect, Confirm, RecordTerminal, Ask,
      AssemblyProtocol.Reconcile, ValidOutcome, ValidAdvanceRequest;
    match e {
      case SubmitEvent(p, submission, admitted) => SubmitKeepsOrphan(w, p, submission, admitted, c);
      case LoadEvent(p, request) => LoadKeepsOrphan(w, p, request, c);
      case ClaimEvent(p) =>
        LocalMovesAreTyped(w, p);
        if At(w, p).Loaded? { CommitKeepsOrphan(w, p, ClaimMove(At(w, p).request), c); }
      case StartEvent(p) =>
        if At(w, p).Holding? { CommitKeepsOrphan(w, p, StartMove, c); }
      case CompleteEvent(p) =>
        if At(w, p).Recorded? { CommitKeepsOrphan(w, p, ExecuteMove(At(w, p).ports), c); }
      case ResolveEvent(p) =>
        LocalMovesAreTyped(w, p);
        if At(w, p).Resolved? { CommitKeepsOrphan(w, p, ReconcileMove(At(w, p).answer), c); }
      case FinishEvent(p) =>
        if At(w, p).Holding? { CommitKeepsOrphan(w, p, FinishMove, c); }
      case RecordEffectEvent(p) => FilingKeepsOrphan(w, p, c);
      case RecordTerminalEvent(p) => FilingKeepsOrphan(w, p, c);
      case ScopeEvent(p) => QuietStepsKeepOrphan(w, p, e, c);
      case CallEvent(p, _) => QuietStepsKeepOrphan(w, p, e, c);
      case ConfirmEvent(p) => QuietStepsKeepOrphan(w, p, e, c);
      case AskEvent(p) => QuietStepsKeepOrphan(w, p, e, c);
      case ReconcileEvent(p, _) => QuietStepsKeepOrphan(w, p, e, c);
      case CrashEvent(p) => QuietKeepsOrphan(w, p, Idle, c);
    }
  }

  lemma LocalMovesAreTyped(w: World, p: nat)
    requires Sane(w)
    ensures At(w, p).Loaded? ==> ValidAdvanceRequest(At(w, p).request)
    ensures At(w, p).Resolved? ==> ValidOutcome(At(w, p).answer)
  {
    hide Safe, WrittenAhead, ValidOutcome;
    MovesAreTyped(w, p);
  }

  lemma SubmitKeepsOrphan(w: World, p: nat, submission: SubmitRequest, admitted: seq<AdmittedInput>, c: Checkpoint)
    requires Sane(w) && Orphaned(w, c)
    ensures Orphaned(Submit(w, p, submission, admitted), c)
    ensures Answered(Submit(w, p, submission, admitted).tables, c) == Answered(w.tables, c)
  {
    hide Admission, Written, Answered, Writable, Safe, WrittenAhead, Latest, RowsSound;
    SafeTables(w);
    var first := Admission(submission, admitted);
    if At(w, p).Idle? && first.Success? && Writable(w.tables, first.value, 0, None) {
      HeadedIsWritten(w.tables, c, first.value);
      OtherCommitKeepsOrphan(w, p, FinishMove, c, first.value);
    }
  }

  /** A first record is only written for an assembly that has none. */
  lemma HeadedIsWritten(t: Tables, c: Checkpoint, first: Checkpoint)
    requires RowsSound(t) && Latest(t, c.assemblyId) == Some(c) && Writable(t, first, 0, None)
    ensures first.assemblyId != c.assemblyId
  {
    hide RowsSound, KeyTaken, History;
    LatestIsStored(t, c.assemblyId);
    StoredIsRecord(t, c);
    ControllerAnswers.HeadOfLatest(t, c);
  }

  lemma LoadKeepsOrphan(w: World, p: nat, request: AdvanceRequest, c: Checkpoint)
    requires Orphaned(w, c)
    ensures Orphaned(Load(w, p, request), c) && Load(w, p, request).tables == w.tables
  {
    hide Orphaned, Load, Latest;
    if Load(w, p, request) != w {
      LoadReads(w, p, request);
      QuietKeepsOrphan(w, p, At(Load(w, p, request), p), c);
    }
  }

  /** The steps that only move their own process. */
  lemma QuietStepsKeepOrphan(w: World, p: nat, e: Event, c: Checkpoint)
    requires Orphaned(w, c)
    requires e == ScopeEvent(p) || (e.CallEvent? && e.p == p) || e == ConfirmEvent(p) || e == AskEvent(p)
          || (e.ReconcileEvent? && e.p == p)
    ensures Orphaned(Apply(w, e), c) && Apply(w, e).tables == w.tables
  {
    hide Latest, Callable, StillLatest, Next, ScopeOf, ValidOutcome, Readable;
    QuietKeepsOrphan(w, p, Idle, c);
    QuietKeepsOrphan(w, p, At(Apply(w, e), p), c);
  }

  lemma FilingKeepsOrphan(w: World, p: nat, c: Checkpoint)
    requires Orphaned(w, c)
    ensures Orphaned(RecordEffect(w, p), c) && Answered(RecordEffect(w, p).tables, c) == Answered(w.tables, c)
    ensures Orphaned(RecordTerminal(w, p), c) && Answered(RecordTerminal(w, p).tables, c) == Answered(w.tables, c)
  {
    hide Orphaned, Answered, Next, StartScope, PortField, StoredAuthority, ValidOutcome, Recordable,
      AssemblyRepository.Recorded;
    QuietKeepsOrphan(w, p, Idle, c);
    if At(w, p).Called? {
      var Called(current, ports) := At(w, p);
      QuietKeepsOrphan(w, p, Received(current, ports), c);
      if StartScope(current).Success? {
        var outcome := EffectOutcome(StartScope(current).value, ports);
        RecordKeepsOrphan(w, p, EffectReceipts, outcome, Received(current, ports), c);
      }
    }
    if At(w, p).Confirmed? {
      var Confirmed(current, ports) := At(w, p);
      QuietKeepsOrphan(w, p, Local.Recorded(current, ports), c);
      var next := Next(current, ExecuteMove(ports));
      if StartScope(current).Success? && next.Success? {
        var outcome := TerminalOutcome(StartScope(current).value, next.value);
        RecordKeepsOrphan(w, p, TerminalReadbacks, outcome, Local.Recorded(current, ports), c);
      }
    }
  }

  lemma {:induction false} RunKeepsOrphan(w: World, events: seq<Event>, c: Checkpoint)
    requires Sane(w) && w.production && Orphaned(w, c) && !Answered(w.tables, c)
    ensures Orphaned(Run(w, events), c)
    decreases |events|
  {
    hide Sane, Orphaned, Answered, Apply;
    if events != [] {
      StepSane(w, events[0]);
      StepKeepsOrphan(w, events[0], c);
      RunKeepsOrphan(Apply(w, events[0]), events[1..], c);
    }
  }

  // ---------------------------------------------------------------- results

  /** All slices of the assembly are done and its last advance is closed. */
  ghost predicate Finished(w: World, a: Uuid) {
    var latest := Latest(w.tables, a);
    latest.Some? && latest.value.completed == TOTAL_SLICES && latest.value.active.None?
  }

  ghost predicate Completable(w: World, a: Uuid) {
    exists events :: Finished(Run(w, events), a)
  }

  /** A completed assembly has its final report. */
  lemma FinishedIsReported(w: World, a: Uuid)
    requires Sane(w) && Finished(w, a)
    ensures var h := History(w.tables, a);
      |h| > 0 && |h[|h| - 1].checkpoint.items| == INPUTS && FinalEvidence.Report(h).Success?
  {
    hide Safe, WrittenAhead, Latest, Chronicle, History, RowsSound, FinalEvidence.Report;
    SafeTables(w);
    ControllerAnswers.LatestHasHead(w.tables, a);
    HeadIsLast(w.tables, a);
    assert Chronicle(a, History(w.tables, a)) by { HeadedIsChronicle(w.tables, a); }
    FinalEvidence.FinishedIffReported(a, History(w.tables, a));
  }

  lemma HeadedIsChronicle(t: Tables, a: Uuid)
    requires TablesLawful(t) && a in t.heads
    ensures Chronicle(a, History(t, a)) && |History(t, a)| > 0
  {
    hide Lawful, Sound, ItemsAdvance;
  }

  lemma CrashRests(w: World, p: nat)
    ensures At(Apply(w, CrashEvent(p)), p).Idle? && Apply(w, CrashEvent(p)).tables == w.tables
    ensures Apply(w, CrashEvent(p)).calls == w.calls
  {
  }

  lemma RestCompletes(w: World, c: Checkpoint)
    requires Sane(w) && Latest(w.tables, c.assemblyId) == Some(c) && c.started.None?
    ensures Completable(w, c.assemblyId)
  {
    hide Sane, Latest, Apply, Run;
    StepSane(w, CrashEvent(0));
    CrashRests(w, 0);
    OneStep(w, CrashEvent(0));
    var events, last := RestedCompletes(Apply(w, CrashEvent(0)), 0, c);
    RunOn(w, [CrashEvent(0)], events);
    assert Finished(Run(w, [CrashEvent(0)] + events), c.assemblyId);
  }

  /** In any reachable world an assembly without a started slice can be completed: all 24 slices, whatever
   *  happened before. Every slice on the way has an answer that its checks accept. */
  lemma UnstartedCompletes(production: bool, events: seq<Event>, a: Uuid)
    requires Latest(Reached(production, events).tables, a).Some?
    requires Latest(Reached(production, events).tables, a).value.started.None?
    ensures Completable(Reached(production, events), a)
  {
    hide Sane, Reached, Completable, Latest, Safe;
    var w := Reached(production, events);
    ReachedSane(production, events);
    LatestNamesAssembly(w, a);
    RestCompletes(w, Latest(w.tables, a).value);
  }

  lemma LatestNamesAssembly(w: World, a: Uuid)
    requires Sane(w) && Latest(w.tables, a).Some?
    ensures Latest(w.tables, a).value.assemblyId == a
  {
    hide Safe, WrittenAhead, RowsSound;
    SafeTables(w);
    LatestIsStored(w.tables, a);
  }

  /** The slice after this checkpoint is closed, and no effect was called for it. */
  ghost predicate Recovered(w: World, w': World, c: Checkpoint) {
    var latest := Latest(w'.tables, c.assemblyId);
    && latest.Some? && latest.value.completed == c.completed + 1 && latest.value.started.None?
    && w'.calls == w.calls
  }

  ghost predicate Recoverable(w: World, c: Checkpoint) {
    exists events :: Recovered(w, Run(w, events), c)
  }

  lemma IdleRecovers(w: World, p: nat, c: Checkpoint) returns (events: seq<Event>)
    requires Sane(w) && At(w, p).Idle? && Latest(w.tables, c.assemblyId) == Some(c)
    requires c.started.Some? && Answered(w.tables, c)
    ensures Recovered(w, Run(w, events), c)
  {
    hide Safe, WrittenAhead, Lawful, Latest, Next, Apply, Run, ReconcileAnswer, StartScope, ControllerAnswers.Good,
      Resumes, StillLatest, ValidCheckpoint;
    LatestFacts(w, c);
    ControllerAnswers.ClaimsFromRest(c);
    var request := ResumingRequest(c);
    var scope := StartScope(c).value;
    var answer := ReconcileAnswer(w.tables, scope).value.value;
    var done := Next(c, ExecuteMove(answer.authorities)).value;
    RecordedSliceIsRecovered(w, p, c, request, scope, answer, done);
    ControllerAnswers.MoveFacts(c, ExecuteMove(answer.authorities), done);
    events := [LoadEvent(p, request), AskEvent(p), ReconcileEvent(p, Some(answer)), ResolveEvent(p)];
  }

  /** A recorded answer closes its slice without the effect. */
  lemma AnsweredRecovers(w: World, c: Checkpoint) returns (events: seq<Event>)
    requires Sane(w) && Latest(w.tables, c.assemblyId) == Some(c) && c.started.Some? && Answered(w.tables, c)
    ensures Sane(Run(w, events)) && Recovered(w, Run(w, events), c)
  {
    hide Sane, Latest, Answered, Apply, Run;
    StepSane(w, CrashEvent(0));
    CrashRests(w, 0);
    OneStep(w, CrashEvent(0));
    var rest := IdleRecovers(Apply(w, CrashEvent(0)), 0, c);
    events := [CrashEvent(0)] + rest;
    RunOn(w, [CrashEvent(0)], rest);
    RunSane(w, events);
  }

  /** A start marker that no process owns, in production: its slice is ever closed if and only if the tables
   *  answer for it with an answer that the checks accept. Otherwise its assembly never moves again. */
  lemma OrphanClosesIffAnswered(events: seq<Event>, c: Checkpoint)
    requires Orphaned(Reached(true, events), c)
    ensures var w := Reached(true, events);
      && (Recoverable(w, c) <==> Answered(w.tables, c))
      && (!Answered(w.tables, c) ==> forall more :: Latest(Run(w, more).tables, c.assemblyId) == Some(c))
  {
    hide Sane, Reached, Answered;
    var w := Reached(true, events);
    ReachedSane(true, events);
    if Answered(w.tables, c) {
      var more := AnsweredRecovers(w, c);
    } else {
      forall more
        ensures Latest(Run(w, more).tables, c.assemblyId) == Some(c)
      {
        RunKeepsOrphan(w, more, c);
      }
    }
  }

  /** In production, an assembly on whose latest record no process is working can be completed if and only
   *  if that record starts no slice, or the tables answer acceptably for the slice it starts. */
  lemma CompletableIff(events: seq<Event>, c: Checkpoint)
    requires var w := Reached(true, events);
      && Latest(w.tables, c.assemblyId) == Some(c)
      && forall p :: p in w.locals && Owns(w.locals[p]) ==> w.locals[p].current != c
    ensures var w := Reached(true, events);
      Completable(w, c.assemblyId) <==> c.started.None? || Answered(w.tables, c)
  {
    hide Sane, Reached, Answered, Latest;
    var w := Reached(true, events);
    ReachedSane(true, events);
    if c.started.None? {
      RestCompletes(w, c);
    } else if Answered(w.tables, c) {
      var first := AnsweredRecovers(w, c);
      LatestNamesAssembly(Run(w, first), c.assemblyId);
      RestCompletes(Run(w, first), Latest(Run(w, first).tables, c.assemblyId).value);
      CompletableLater(w, first, c.assemblyId);
    } else {
      StartedIsUnfinished(w, c);
      forall more
        ensures !Finished(Run(w, more), c.assemblyId)
      {
        RunKeepsOrphan(w, more, c);
      }
    }
  }

  lemma CompletableLater(w: World, first: seq<Event>, a: Uuid)
    requires Completable(Run(w, first), a)
    ensures Completable(w, a)
  {
    hide Finished, Apply;
    var rest :| Finished(Run(Run(w, first), rest), a);
    RunOn(w, first, rest);
  }

  lemma StartedIsUnfinished(w: World, c: Checkpoint)
    requires Sane(w) && Latest(w.tables, c.assemblyId) == Some(c) && c.started.Some?
    ensures c.active.Some?
  {
    hide Safe, WrittenAhead, Lawful, Latest;
    LatestFacts(w, c);
    ControllerAnswers.ClaimsFromRest(c);
  }
}
