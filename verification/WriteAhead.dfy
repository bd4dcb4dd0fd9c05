/** The production composition writes ahead: results are durable before the checkpoint that uses them,
 *  the two readback tables never disagree, and no effect is called twice. */
module WriteAhead {
  import opened Wrappers
  import opened AssemblyContracts
  import opened AssemblyTransitions
  import opened HistoryValidation
  import opened HistoryLaws
  import opened AuthorityLaws
  import opened ControllerRuns
  import opened RecoveryRefinement
  import opened AssemblyRepository
  import opened AssemblyProtocol
  import opened ProtocolSafety

  // ---------------------------------------------------------------- what a completion stores

  /** A completed slice stores exactly the port's own field of the answer. */
  lemma StoredIsPort(c: Checkpoint, ports: Authorities, done: Checkpoint)
    requires Lawful(c) && c.started.Some? && Next(c, ExecuteMove(ports)) == Success(done)
    ensures StoredAuthority(c.started.value, done) == PortField(c.started.value.kind, ports)
  {
    hide ValidParts, ShapeAccepted, Tiled, OutcomesPrecede, ItemsLawful, ResumeLawful, AppendSlice, ExecutedItem,
      StoredAuthority, PortField;
    LawfulStands(c);
    StartedSlice(c);
    if c.completed < INPUT_SLICES {
      var item := ExecuteIsAppend(c, ports, done);
      InputStored(c, ports, item, done);
    } else {
      var resume := ExecuteResumeIsAppend(c, ports, done);
      ResumeStored(c, ports, resume, done);
    }
  }

  lemma LawfulStands(c: Checkpoint)
    requires Lawful(c)
    ensures Standing(c) && ValidCheckpoint(c)
  {
    hide ValidCheckpoint, ShapeAccepted, Lexicographic, Tiled, OutcomesPrecede, ItemsLawful, ResumeLawful;
  }

  lemma InputStored(c: Checkpoint, ports: Authorities, item: ItemState, done: Checkpoint)
    requires Standing(c) && c.completed < INPUT_SLICES && c.started == SliceFor(c.completed, c) && |c.items| == INPUTS
    requires var index, k := c.completed / STAGES_PER_INPUT, c.completed % STAGES_PER_INPUT;
      && index < INPUTS
      && ExecutedItem(c.items[index], STAGES[k], index == 0, ports) == Success(item)
      && AppendSlice(c, c.items[index := item], c.started.value, NO_RESUME, Advancing, None) == Success(done)
    ensures StoredAuthority(c.started.value, done) == PortField(c.started.value.kind, ports)
  {
    hide ValidParts, ShapeAccepted, Lexicographic;
    var index := c.completed / STAGES_PER_INPUT;
    assert done.items == c.items[index := item];
    ItemStored(c.items[index], STAGES[c.completed % STAGES_PER_INPUT], index == 0, ports, item);
    assert ValidCheckpoint(done);
    ItemIndexOfOrdinal(done, index);
  }

  /** The field a stage stores in its item. */
  lemma ItemStored(item: ItemState, stage: Stage, first: bool, ports: Authorities, done: ItemState)
    requires ExecutedItem(item, stage, first, ports) == Success(done)
    ensures done.request == item.request
    ensures PortField(InputStage(stage), ports) == match stage
      case Evaluate => NO_AUTHORITY.(benchmark := done.benchmarkAuthority)
      case Promote => NO_AUTHORITY.(factory := done.releaseAuthority)
      case Execute => NO_AUTHORITY.(execution := done.executionAuthority)
      case Project => NO_AUTHORITY.(projection := done.projectionAuthority)
      case _ => NO_AUTHORITY.(factory := done.stageAuthority)
  {
    hide ValidItem, RequireFactory, RequireRelease, RequireExecution, RequireProjection, EvidenceOf;
  }

  lemma ResumeStored(c: Checkpoint, ports: Authorities, resume: ResumeChange, done: Checkpoint)
    requires c.started == SliceFor(c.completed, c) && c.started.Some? && INPUT_SLICES <= c.completed
    requires AddsResume(c, resume, ports)
    requires AppendSlice(c, c.items, c.started.value, resume, ResumeStatus(c), None) == Success(done)
    ensures StoredAuthority(c.started.value, done) == PortField(c.started.value.kind, ports)
  {
    hide ValidCheckpoint;
  }

  /** A reconciled completion stores exactly the authority its answer carries. */
  lemma StoredIsAnswer(c: Checkpoint, answer: Outcome, done: Checkpoint)
    requires Lawful(c) && ValidOutcome(answer) && answer.disposition == TerminalReadback
    requires Next(c, ReconcileMove(answer)) == Success(done)
    ensures StartScope(c) == Success(answer.scope) && TerminalOutcome(answer.scope, done) == answer
  {
    hide Lawful, ValidOutcome, StoredAuthority, PortField, CompleteFromReconciliation, ExecuteSlice;
    RecoveryRefinesExecution(c, answer);
    var executed := Next(c, ExecuteMove(answer.authorities)).value;
    StoredIsPort(c, answer.authorities, executed);
    StoredIgnoresOutcomes(answer.scope.startedSlice, executed, done.outcomes);
    ValidAnswerIsPort(answer);
  }

  lemma StoredIgnoresOutcomes(slice: Slice, done: Checkpoint, outcomes: seq<Outcome>)
    ensures StoredAuthority(slice, done.(outcomes := outcomes)) == StoredAuthority(slice, done)
  {
  }

  /** A valid terminal outcome carries its one field and nothing else. */
  lemma ValidAnswerIsPort(answer: Outcome)
    requires ValidOutcome(answer) && answer.disposition == TerminalReadback
    ensures PortField(answer.scope.startedSlice.kind, answer.authorities) == answer.authorities && answer.retry.None?
  {
    hide ValidAuthorities;
  }

  /** For one slice, the receipt the adapter files and the controller's terminal record are the same. */
  lemma EffectIsTerminalOutcome(c: Checkpoint, ports: Authorities, done: Checkpoint, scope: ReconciliationRequest)
    requires Lawful(c) && c.started.Some? && StartScope(c) == Success(scope)
    requires Next(c, ExecuteMove(ports)) == Success(done)
    ensures EffectOutcome(scope, ports) == TerminalOutcome(scope, done)
  {
    hide Lawful, Next, StoredAuthority, PortField;
    StoredIsPort(c, ports, done);
  }

  /** An accepted stage answered in its own field. */
  lemma StageAnswered(item: ItemState, stage: Stage, first: bool, ports: Authorities, done: ItemState)
    requires ExecutedItem(item, stage, first, ports) == Success(done)
    ensures FieldPresent(InputStage(stage), ports)
    ensures stage == Evaluate ==> ports.benchmark.Some? && ports.benchmark.value.business
  {
    hide ValidItem, EvidenceOf;
  }

  lemma PortAnswered(c: Checkpoint, ports: Authorities, done: Checkpoint)
    requires Lawful(c) && c.started.Some? && Next(c, ExecuteMove(ports)) == Success(done)
    ensures FieldPresent(c.started.value.kind, ports) && c.started.value.ordinal < TOTAL_SLICES
    ensures c.started.value.kind == InputStage(Evaluate) ==> ports.benchmark.Some? && ports.benchmark.value.business
  {
    hide ValidParts, ShapeAccepted, Tiled, OutcomesPrecede, ItemsLawful, ResumeLawful, AppendSlice, ExecutedItem,
      FieldPresent;
    LawfulStands(c);
    StartedSlice(c);
    if c.completed < INPUT_SLICES {
      var item := ExecuteIsAppend(c, ports, done);
      var index := c.completed / STAGES_PER_INPUT;
      StageAnswered(c.items[index], STAGES[c.completed % STAGES_PER_INPUT], index == 0, ports, item);
    } else {
      var resume := ExecuteResumeIsAppend(c, ports, done);
      ResumeAnswered(c, resume, ports);
    }
  }

  lemma ResumeAnswered(c: Checkpoint, resume: ResumeChange, ports: Authorities)
    requires AddsResume(c, resume, ports) && c.started == SliceFor(c.completed, c) && c.started.Some?
    requires INPUT_SLICES <= c.completed
    ensures FieldPresent(c.started.value.kind, ports)
  {
  }

  lemma PortFieldIsOutcome(kind: SliceKind, ports: Authorities)
    requires ValidAuthorities(ports) && FieldPresent(kind, ports)
    requires kind == InputStage(Evaluate) ==> ports.benchmark.Some? && ports.benchmark.value.business
    ensures var a := PortField(kind, ports);
      && ValidAuthorities(a) && AuthorityCount(a) == 1 && FieldPresent(kind, a)
      && (a.benchmark.Some? ==> a.benchmark.value.business)
  {
    hide ValidFactory;
  }

  /** The terminal record of an accepted, typed answer always satisfies its own contract. */
  lemma TerminalRecordIsValid(c: Checkpoint, ports: Authorities, done: Checkpoint)
    requires Lawful(c) && c.started.Some? && ValidAuthorities(ports) && Next(c, ExecuteMove(ports)) == Success(done)
    ensures StartScope(c).Success? && ValidOutcome(TerminalOutcome(StartScope(c).value, done))
  {
    hide Lawful, Next, StoredAuthority, PortField, ValidAuthorities, FieldPresent;
    StartHasScope(c);
    PortAnswered(c, ports, done);
    StoredIsPort(c, ports, done);
    PortFieldIsOutcome(c.started.value.kind, ports);
  }

  // ---------------------------------------------------------------- the invariant

  ghost predicate NoRetryRecorded(t: Tables) {
    forall k :: k in t.rows ==> AllTerminal(t.rows[k].payload.outcomes)
  }

  predicate AllTerminal(outcomes: seq<Outcome>) {
    forall i :: 0 <= i < |outcomes| ==> outcomes[i].disposition == TerminalReadback
  }

  ghost predicate Agreement(t: Tables) {
    forall k :: k in t.effects && k in t.terminal ==> t.effects[k] == t.terminal[k]
  }

  /** The key names a stored start marker that was used for an effect call. */
  predicate KeySpent(t: Tables, spent: set<(Uuid, nat)>, k: ReadbackKey) {
    && k.startedSha.OfCheckpoint?
    && Stored(t, k.startedSha.checkpoint)
    && TokenOf(k.startedSha.checkpoint) in spent
  }

  ghost predicate KeysSpent(t: Tables, spent: set<(Uuid, nat)>) {
    forall k :: k in t.effects || k in t.terminal ==> KeySpent(t, spent, k)
  }

  function StartKey(c: Checkpoint): ReadbackKey
    requires StartScope(c).Success?
  {
    KeyOf(StartScope(c).value)
  }

  /** What the readback tables hold for a process that has used its start marker. */
  ghost predicate LocalDurable(effects: map<ReadbackKey, Outcome>, terminal: map<ReadbackKey, Outcome>, l: Local) {
    if l.Called? then
      StartScope(l.current).Success? && StartKey(l.current) !in effects && StartKey(l.current) !in terminal
    else if l.Received? || l.Confirmed? then
      && StartScope(l.current).Success?
      && StartKey(l.current) !in terminal
      && (if l.current.completed < INPUT_SLICES then
            StartKey(l.current) in effects
            && effects[StartKey(l.current)] == EffectOutcome(StartScope(l.current).value, l.ports)
          else
            StartKey(l.current) !in effects)
    else if l.Recorded? then
      && StartScope(l.current).Success?
      && Next(l.current, ExecuteMove(l.ports)).Success?
      && StartKey(l.current) in terminal
      && terminal[StartKey(l.current)]
         == TerminalOutcome(StartScope(l.current).value, Next(l.current, ExecuteMove(l.ports)).value)
    else true
  }

  ghost predicate AnswersReadable(w: World) {
    forall p :: p in w.locals && w.locals[p].Resolved? ==>
      Readable(w.tables, w.locals[p].answer.scope, w.locals[p].answer)
  }

  /** The result of this completion can be read back under the scope of its start marker. */
  ghost predicate DurablyRecorded(t: Tables, prior: Checkpoint, done: Checkpoint) {
    && StartScope(prior).Success?
    && Readable(t, StartScope(prior).value, TerminalOutcome(StartScope(prior).value, done))
  }

  ghost predicate CompletionsDurable(t: Tables) {
    forall a, r :: (a, r) in t.rows && (a, r + 1) in t.rows
                   && t.rows[(a, r + 1)].payload.completed == t.rows[(a, r)].payload.completed + 1 ==>
      DurablyRecorded(t, t.rows[(a, r)].payload, t.rows[(a, r + 1)].payload)
  }

  ghost predicate WrittenAhead(w: World) {
    && w.production
    && NoRetryRecorded(w.tables)
    && Agreement(w.tables)
    && KeysSpent(w.tables, w.spent)
    && (forall p :: p in w.locals ==> LocalDurable(w.tables.effects, w.tables.terminal, w.locals[p]))
    && AnswersReadable(w)
    && CompletionsDurable(w.tables)
  }

  // ---------------------------------------------------------------- committing

  lemma KeyOfStart(c: Checkpoint)
    requires StartScope(c).Success?
    ensures StartKey(c).startedSha == OfCheckpoint(c)
  {
  }

  /** Only a completion moves progress. */
  lemma ProgressMove(current: Checkpoint, move: Move, c: Checkpoint)
    requires Next(current, move) == Success(c) && c.completed != current.completed
    ensures move.ExecuteMove? || (move.ReconcileMove? && move.answer.disposition == TerminalReadback)
  {
    hide ValidCheckpoint, ExecuteSlice, CompleteFromReconciliation;
  }

  /** The move carries what the process recorded, or what it read back. */
  predicate FromLocal(l: Local, move: Move) {
    && (move.ExecuteMove? ==> l.Recorded? && move.ports == l.ports)
    && (move.ReconcileMove? ==> l.Resolved? && move.answer == l.answer)
  }

  lemma ReadableIsTerminal(t: Tables, answer: Outcome)
    requires Readable(t, answer.scope, answer)
    ensures answer.disposition == TerminalReadback
  {
  }

  /** A completion commits only what the tables already answer for its start marker. */
  lemma CompletionIsDurable(w: World, p: nat, move: Move, c: Checkpoint)
    requires Safe(w) && WrittenAhead(w) && !At(w, p).Idle? && FromLocal(At(w, p), move) && TypedMove(move)
    requires Next(At(w, p).current, move) == Success(c) && c.completed != At(w, p).current.completed
    ensures DurablyRecorded(w.tables, At(w, p).current, c)
  {
    hide Safe, Next, TerminalOutcome, ValidOutcome, NoRetryRecorded, Agreement, KeysSpent, CompletionsDurable, Lawful;
    var current := At(w, p).current;
    ProgressMove(current, move, c);
    if move.ReconcileMove? {
      LocalIsStored(w, p);
      StoredIsLawful(w.tables, current);
      StoredIsAnswer(current, move.answer, c);
    } else {
      assert LocalDurable(w.tables.effects, w.tables.terminal, w.locals[p]);
      TerminalIsTerminal(StartScope(current).value, c);
    }
  }

  lemma CommitKeepsTerminal(w: World, p: nat, move: Move, c: Checkpoint)
    requires WrittenAhead(w) && !At(w, p).Idle? && FromLocal(At(w, p), move)
    requires Stored(w.tables, At(w, p).current) && Bookkeeping(At(w, p).current, move, c)
    ensures NoRetryRecorded(Written(w.tables, c, ConsumedBy(move)))
  {
    hide Agreement, KeysSpent, CompletionsDurable, LocalDurable, Readable, CheckpointRef, ReceiptFor, ScopeOf;
    assert AllTerminal(At(w, p).current.outcomes);
    if move.ReconcileMove? {
      ReadableIsTerminal(w.tables, move.answer);
    }
    var t' := Written(w.tables, c, ConsumedBy(move));
    forall k | k in t'.rows
      ensures AllTerminal(t'.rows[k].payload.outcomes)
    {
      if k in w.tables.rows {
        assert AllTerminal(w.tables.rows[k].payload.outcomes);
      }
    }
  }

  lemma CommitKeepsDurable(t: Tables, t': Tables, current: Checkpoint, c: Checkpoint)
    requires CompletionsDurable(t) && Extends(t, t', c) && Stored(t, current)
    requires t'.effects == t.effects && t'.terminal == t.terminal
    requires c.assemblyId == current.assemblyId && c.revision == current.revision + 1
    requires c.completed != current.completed ==> DurablyRecorded(t, current, c)
    ensures CompletionsDurable(t')
  {
    hide History, RowSound, TerminalOutcome, StartScope;
    NextRowFree(t, c.assemblyId, |History(t, c.assemblyId)|);
    RowsBelowHead(t', c.assemblyId, c.revision + 1);
    HeadLength(t');
    forall a, r | (a, r) in t'.rows && (a, r + 1) in t'.rows
                  && t'.rows[(a, r + 1)].payload.completed == t'.rows[(a, r)].payload.completed + 1
      ensures DurablyRecorded(t', t'.rows[(a, r)].payload, t'.rows[(a, r + 1)].payload)
    {
      if (a, r + 1) in t.rows && (a, r) in t.rows {
        assert DurablyRecorded(t, t.rows[(a, r)].payload, t.rows[(a, r + 1)].payload);
      }
    }
  }

  lemma HeadLength(t: Tables)
    requires RowsSound(t)
    ensures forall a :: a in t.heads ==> |History(t, a)| == t.heads[a].latest
    ensures forall a :: a !in t.heads ==> |History(t, a)| == 0
  {
    hide RowSound;
  }

  lemma RowsBelowHead(t: Tables, a: Uuid, r: nat)
    requires RowsSound(t) && r > |History(t, a)|
    ensures (a, r) !in t.rows
  {
    hide RowSound;
  }

  lemma CommitKeepsKeys(w: World, t': Tables, c: Checkpoint)
    requires KeysSpent(w.tables, w.spent) && Extends(w.tables, t', c)
    requires t'.effects == w.tables.effects && t'.terminal == w.tables.terminal
    ensures KeysSpent(t', w.spent)
  {
    hide RowsSound, History;
    forall k | k in t'.effects || k in t'.terminal
      ensures KeySpent(t', w.spent, k)
    {
      assert KeySpent(w.tables, w.spent, k);
    }
  }

  lemma CommitAhead(w: World, p: nat, move: Move)
    requires Safe(w) && WrittenAhead(w) && !At(w, p).Idle? && TypedMove(move) && FromLocal(At(w, p), move)
    ensures WrittenAhead(Commit(w, p, move))
  {
    hide Safe, Next, NoRetryRecorded, Agreement, KeysSpent, CompletionsDurable, Writable, Bookkeeping, TypedMove,
      Stored, Extends, TablesLawful, Lawful, Follows, RetriesConsumed;
    var current := At(w, p).current;
    var next := Next(current, move);
    QuietAhead(w, p, Idle);
    if next.Success? && Writable(w.tables, next.value, current.revision, ConsumedBy(move)) {
      var c := next.value;
      var t' := Written(w.tables, c, ConsumedBy(move));
      LocalIsStored(w, p);
      StoredIsLawful(w.tables, current);
      NextBookkeeping(current, move, c);
      NextKeepsLaws(current, move, c);
      FollowsBasics(current, c);
      CommitConsumes(w.tables, current, move, c);
      CommitExtends(w.tables, current, move, ConsumedBy(move), c);
      CommitKeepsTerminal(w, p, move, c);
      if c.completed != current.completed {
        CompletionIsDurable(w, p, move, c);
      }
      CommitKeepsDurable(w.tables, t', current, c);
      CommitKeepsKeys(w, t', c);
      TablesAhead(w, t', p, After(move, c));
    }
  }

  /** New rows, same readback tables. */
  lemma TablesAhead(w: World, t': Tables, p: nat, l: Local)
    requires WrittenAhead(w) && NoRetryRecorded(t') && KeysSpent(t', w.spent) && CompletionsDurable(t')
    requires t'.effects == w.tables.effects && t'.terminal == w.tables.terminal
    requires l.Idle? || l.Holding? || l.Started?
    ensures WrittenAhead(Moved(w.(tables := t'), p, l))
  {
    hide NoRetryRecorded, KeysSpent, CompletionsDurable;
  }

  /** A process that moves without touching the tables. */
  lemma QuietAhead(w: World, p: nat, l: Local)
    requires WrittenAhead(w) && LocalDurable(w.tables.effects, w.tables.terminal, l)
    requires l.Resolved? ==> Readable(w.tables, l.answer.scope, l.answer)
    ensures WrittenAhead(Moved(w, p, l))
  {
    hide NoRetryRecorded, Agreement, KeysSpent, CompletionsDurable, LocalDurable, Readable;
  }

  // ---------------------------------------------------------------- calling and recording

  /** Before its start marker is used, no table knows its key. */
  lemma FreshKey(w: World, p: nat)
    requires Safe(w) && WrittenAhead(w) && At(w, p).Scoped?
    ensures var c := At(w, p).current;
      StartScope(c).Success? && StartKey(c) !in w.tables.effects && StartKey(c) !in w.tables.terminal
  {
    hide TablesLawful, RetriesConsumed, SpentStored, CallsCounted, NoRetryRecorded, Agreement, CompletionsDurable,
      LocalDurable, AnswersReadable, ValidOutcome, Stored, Lawful;
    var c := At(w, p).current;
    LocalIsStored(w, p);
    LocalAt(w, p);
    StoredIsLawful(w.tables, c);
    StartHasScope(c);
    KeyOfStart(c);
    assert StartKey(c) in w.tables.effects || StartKey(c) in w.tables.terminal ==>
        KeySpent(w.tables, w.spent, StartKey(c));
  }

  lemma StartHasScope(c: Checkpoint)
    requires Lawful(c) && c.started.Some?
    ensures StartScope(c).Success? && StartScope(c).value.startedSlice == c.started.value
  {
    hide ValidParts, ShapeAccepted, Lexicographic, Tiled, OutcomesPrecede, ItemsLawful, ResumeLawful;
  }

  lemma CallAhead(w: World, p: nat, ports: Authorities)
    requires Safe(w) && WrittenAhead(w)
    ensures WrittenAhead(Call(w, p, ports))
  {
    hide Safe, NoRetryRecorded, Agreement, CompletionsDurable, AnswersReadable, StartScope, KeyOf, Stored;
    if At(w, p).Scoped? {
      var w' := Call(w, p, ports);
      FreshKey(w, p);
      CallKeepsKeys(w.tables, w.spent, TokenOf(At(w, p).current));
      assert AnswersReadable(w') by { CallKeepsAnswers(w, p, ports); }
    }
  }

  lemma CallKeepsAnswers(w: World, p: nat, ports: Authorities)
    requires AnswersReadable(w)
    ensures AnswersReadable(Call(w, p, ports))
  {
    hide Readable;
  }

  lemma CallKeepsKeys(t: Tables, spent: set<(Uuid, nat)>, token: (Uuid, nat))
    requires KeysSpent(t, spent)
    ensures KeysSpent(t, spent + {token})
  {
    forall k | k in t.effects || k in t.terminal
      ensures KeySpent(t, spent + {token}, k)
    {
      assert KeySpent(t, spent, k);
    }
  }

  lemma ReadableGrows(t: Tables, t': Tables, scope: ReconciliationRequest, answer: Outcome)
    requires Readable(t, scope, answer) && MapGrows(t.effects, t'.effects) && MapGrows(t.terminal, t'.terminal)
    ensures Readable(t', scope, answer)
  {
  }

  /** A process with another start marker never looks at this key. */
  lemma OtherLocalDurable(w: World, t': Tables, key: ReadbackKey, p: nat, q: nat)
    requires Safe(w) && WrittenAhead(w) && q in w.locals && q != p && Owns(At(w, p))
    requires StartScope(At(w, p).current).Success? && key == StartKey(At(w, p).current)
    requires forall k :: k != key ==> (k in t'.effects <==> k in w.tables.effects)
    requires forall k :: k != key ==> (k in t'.terminal <==> k in w.tables.terminal)
    requires forall k :: k != key && k in t'.effects ==> t'.effects[k] == w.tables.effects[k]
    requires forall k :: k != key && k in t'.terminal ==> t'.terminal[k] == w.tables.terminal[k]
    ensures LocalDurable(t'.effects, t'.terminal, w.locals[q])
  {
    hide TablesLawful, RetriesConsumed, SpentStored, CallsCounted, NoRetryRecorded, Agreement, CompletionsDurable,
      AnswersReadable, ValidOutcome, Stored, KeysSpent, Next, StartScope, EffectOutcome, TerminalOutcome, LocalFits;
    var l := w.locals[q];
    assert OwnersDiffer(l, w.locals[p]);
    assert LocalDurable(w.tables.effects, w.tables.terminal, l);
    KeyOfStart(At(w, p).current);
    if !l.Idle? && StartScope(l.current).Success? {
      KeyOfStart(l.current);
    }
  }

  /** What a recording needs to keep the tables in agreement. */
  predicate Unopposed(t: Tables, which: ReadbackTable, outcome: Outcome) {
    var key := KeyOf(outcome.scope);
    match which
    case EffectReceipts => key in t.terminal ==> t.terminal[key] == outcome
    case TerminalReadbacks => key in t.effects ==> t.effects[key] == outcome
  }

  lemma RecordKeepsTables(t: Tables, spent: set<(Uuid, nat)>, which: ReadbackTable, outcome: Outcome, c: Checkpoint)
    requires Agreement(t) && KeysSpent(t, spent) && CompletionsDurable(t) && NoRetryRecorded(t)
    requires Unopposed(t, which, outcome) && Recordable(t, which, outcome.scope, outcome)
    requires StartScope(c) == Success(outcome.scope) && Stored(t, c) && TokenOf(c) in spent
    ensures var t' := AssemblyRepository.Recorded(t, which, outcome);
      Agreement(t') && KeysSpent(t', spent) && CompletionsDurable(t') && NoRetryRecorded(t')
  {
    var t' := AssemblyRepository.Recorded(t, which, outcome);
    hide TerminalOutcome, ScopeOf, AllTerminal;
    RecordGrows(t, which, outcome.scope, outcome);
    forall a, r | (a, r) in t'.rows && (a, r + 1) in t'.rows
                  && t'.rows[(a, r + 1)].payload.completed == t'.rows[(a, r)].payload.completed + 1
      ensures DurablyRecorded(t', t'.rows[(a, r)].payload, t'.rows[(a, r + 1)].payload)
    {
      assert DurablyRecorded(t, t.rows[(a, r)].payload, t.rows[(a, r + 1)].payload);
    }
    KeyOfStart(c);
    forall k | k in t'.effects || k in t'.terminal
      ensures KeySpent(t', spent, k)
    {
      assert k != KeyOf(outcome.scope) ==> KeySpent(t, spent, k);
    }
  }

  /** Recording under one's own start marker keeps the invariant. */
  lemma RecordAhead(w: World, p: nat, which: ReadbackTable, outcome: Outcome, l: Local)
    requires Safe(w) && WrittenAhead(w) && Owns(At(w, p)) && TokenOf(At(w, p).current) in w.spent
    requires StartScope(At(w, p).current) == Success(outcome.scope)
    requires Unopposed(w.tables, which, outcome) && Recordable(w.tables, which, outcome.scope, outcome)
    requires var t' := AssemblyRepository.Recorded(w.tables, which, outcome);
      Owns(l) && LocalDurable(t'.effects, t'.terminal, l)
    ensures WrittenAhead(Moved(w.(tables := AssemblyRepository.Recorded(w.tables, which, outcome)), p, l))
  {
    hide Safe, NoRetryRecorded, Agreement, CompletionsDurable, KeysSpent, LocalDurable, StartScope, Unopposed, Stored,
      Owns, AssemblyRepository.Recorded, Recordable, AnswersReadable;
    var t' := AssemblyRepository.Recorded(w.tables, which, outcome);
    OwnerIsBusy(At(w, p));
    OwnerIsBusy(l);
    LocalIsStored(w, p);
    RecordKeepsTables(w.tables, w.spent, which, outcome, At(w, p).current);
    RecordKeepsAnswers(w, p, which, outcome, l);
    forall q | q in w.locals && q != p
      ensures LocalDurable(t'.effects, t'.terminal, w.locals[q])
    {
      RecordedElsewhere(w.tables, which, outcome);
      OtherLocalDurable(w, t', KeyOf(outcome.scope), p, q);
    }
  }

  lemma OwnerIsBusy(l: Local)
    requires Owns(l)
    ensures !l.Idle? && !l.Resolved?
  {
  }

  lemma RecordedElsewhere(t: Tables, which: ReadbackTable, outcome: Outcome)
    ensures var t', key := AssemblyRepository.Recorded(t, which, outcome), KeyOf(outcome.scope);
      && (forall k :: k != key ==> (k in t'.effects <==> k in t.effects) && (k in t'.terminal <==> k in t.terminal))
      && (forall k :: k != key && k in t'.effects ==> t'.effects[k] == t.effects[k])
      && (forall k :: k != key && k in t'.terminal ==> t'.terminal[k] == t.terminal[k])
  {
  }

  lemma RecordKeepsAnswers(w: World, p: nat, which: ReadbackTable, outcome: Outcome, l: Local)
    requires AnswersReadable(w) && Recordable(w.tables, which, outcome.scope, outcome) && !l.Resolved?
    ensures AnswersReadable(Moved(w.(tables := AssemblyRepository.Recorded(w.tables, which, outcome)), p, l))
  {
    hide Readable, Recordable, AssemblyRepository.Recorded;
    var t' := AssemblyRepository.Recorded(w.tables, which, outcome);
    RecordGrows(w.tables, which, outcome.scope, outcome);
    forall q | q in w.locals && q != p && w.locals[q].Resolved?
      ensures Readable(t', w.locals[q].answer.scope, w.locals[q].answer)
    {
      ReadableGrows(w.tables, t', w.locals[q].answer.scope, w.locals[q].answer);
    }
  }

  lemma UsedMarker(w: World, p: nat)
    requires Safe(w) && WrittenAhead(w) && Owns(At(w, p)) && !At(w, p).Started? && !At(w, p).Scoped?
    ensures TokenOf(At(w, p).current) in w.spent && Lawful(At(w, p).current)
    ensures At(w, p).current.started.Some? && StartScope(At(w, p).current).Success?
    ensures LocalDurable(w.tables.effects, w.tables.terminal, At(w, p))
  {
    hide TablesLawful, RetriesConsumed, SpentStored, CallsCounted, NoRetryRecorded, Agreement, CompletionsDurable,
      LocalDurable, AnswersReadable, ValidOutcome, Stored, Lawful, StartScope;
    LocalIsStored(w, p);
    LocalAt(w, p);
    StoredIsLawful(w.tables, At(w, p).current);
    StartHasScope(At(w, p).current);
  }

  /** A called process that has its receipt filed, or that files none. */
  lemma CalledLocal(w: World, outcome: Outcome, current: Checkpoint, ports: Authorities)
    requires LocalDurable(w.tables.effects, w.tables.terminal, Called(current, ports))
    ensures StartScope(current).Success?
    ensures StartKey(current) !in w.tables.effects && StartKey(current) !in w.tables.terminal
    ensures current.completed >= INPUT_SLICES ==>
      LocalDurable(w.tables.effects, w.tables.terminal, Received(current, ports))
    ensures current.completed < INPUT_SLICES && outcome == EffectOutcome(StartScope(current).value, ports) ==>
      var t' := AssemblyRepository.Recorded(w.tables, EffectReceipts, outcome);
      LocalDurable(t'.effects, t'.terminal, Received(current, ports))
  {
    hide StartScope, PortField, KeyOf;
  }

  lemma RecordEffectAhead(w: World, p: nat)
    requires Safe(w) && WrittenAhead(w)
    ensures WrittenAhead(RecordEffect(w, p))
  {
    hide Safe, WrittenAhead, StartScope, EffectOutcome, Recordable, ValidOutcome, AssemblyRepository.Recorded,
      LocalDurable;
    if At(w, p).Called? {
      var Called(current, ports) := At(w, p);
      UsedMarker(w, p);
      InProduction(w);
      PlainLocal(w, Idle);
      QuietAhead(w, p, Idle);
      var scope := StartScope(current).value;
      var outcome := EffectOutcome(scope, ports);
      EffectIsTerminal(scope, ports);
      CalledLocal(w, outcome, current, ports);
      if current.completed >= INPUT_SLICES {
        QuietAhead(w, p, Received(current, ports));
      } else if Recordable(w.tables, EffectReceipts, scope, outcome) {
        RecordAhead(w, p, EffectReceipts, outcome, Received(current, ports));
      }
    }
  }

  lemma RecordedHolds(t: Tables, which: ReadbackTable, outcome: Outcome)
    ensures var t', key := AssemblyRepository.Recorded(t, which, outcome), KeyOf(outcome.scope);
      && key in TableOf(t', which) && TableOf(t', which)[key] == outcome
      && (which == EffectReceipts ==> t'.terminal == t.terminal)
      && (which == TerminalReadbacks ==> t'.effects == t.effects)
  {
  }

  lemma RecordTerminalAhead(w: World, p: nat)
    requires Safe(w) && WrittenAhead(w)
    ensures WrittenAhead(RecordTerminal(w, p))
  {
    hide Safe, StartScope, EffectOutcome, TerminalOutcome, Recordable, ValidOutcome, AssemblyRepository.Recorded, Next,
      NoRetryRecorded, Agreement, KeysSpent, CompletionsDurable, AnswersReadable, Lawful;
    if At(w, p).Confirmed? {
      var Confirmed(current, ports) := At(w, p);
      UsedMarker(w, p);
      QuietAhead(w, p, Idle);
      var next := Next(current, ExecuteMove(ports));
      if next.Success? {
        var scope := StartScope(current).value;
        var outcome := TerminalOutcome(scope, next.value);
        TerminalIsTerminal(scope, next.value);
        EffectIsTerminalOutcome(current, ports, next.value, scope);
        if Recordable(w.tables, TerminalReadbacks, scope, outcome) {
          RecordedHolds(w.tables, TerminalReadbacks, outcome);
          RecordAhead(w, p, TerminalReadbacks, outcome, Local.Recorded(current, ports));
        }
      }
    }
  }

  // ---------------------------------------------------------------- every step, every run

  lemma PlainLocal(w: World, l: Local)
    requires !l.Called? && !l.Received? && !l.Confirmed? && !l.Recorded?
    ensures LocalDurable(w.tables.effects, w.tables.terminal, l)
  {
  }

  lemma ConfirmedLocal(w: World, current: Checkpoint, ports: Authorities)
    requires LocalDurable(w.tables.effects, w.tables.terminal, Received(current, ports))
    ensures LocalDurable(w.tables.effects, w.tables.terminal, Confirmed(current, ports))
  {
    hide EffectOutcome;
  }

  lemma CrashAhead(w: World, p: nat)
    requires WrittenAhead(w)
    ensures WrittenAhead(Moved(w, p, Idle))
  {
    hide WrittenAhead, LocalDurable;
    PlainLocal(w, Idle);
    QuietAhead(w, p, Idle);
  }

  lemma LoadAhead(w: World, p: nat, request: AdvanceRequest)
    requires WrittenAhead(w)
    ensures WrittenAhead(Load(w, p, request))
  {
    hide WrittenAhead, LocalDurable, Latest, Load, Readable;
    if Load(w, p, request) != w {
      LoadReads(w, p, request);
      PlainLocal(w, At(Load(w, p, request), p));
      QuietAhead(w, p, At(Load(w, p, request), p));
    }
  }

  lemma ScopeAhead(w: World, p: nat)
    requires WrittenAhead(w)
    ensures WrittenAhead(Scope(w, p))
  {
    hide WrittenAhead, LocalDurable, StillLatest, Callable, Readable;
    CrashAhead(w, p);
    if At(w, p).Started? {
      PlainLocal(w, Scoped(At(w, p).current));
      QuietAhead(w, p, Scoped(At(w, p).current));
    }
  }

  lemma ConfirmAhead(w: World, p: nat)
    requires Safe(w) && WrittenAhead(w)
    ensures WrittenAhead(Confirm(w, p))
  {
    hide Safe, WrittenAhead, LocalDurable, StillLatest, Next, Readable, Lawful, StartScope;
    CrashAhead(w, p);
    if At(w, p).Received? {
      UsedMarker(w, p);
      ConfirmedLocal(w, At(w, p).current, At(w, p).ports);
      QuietAhead(w, p, Confirmed(At(w, p).current, At(w, p).ports));
    }
  }

  lemma AskAndReconcileAhead(w: World, p: nat, answer: Option<Outcome>)
    requires Safe(w) && WrittenAhead(w)
    ensures WrittenAhead(Ask(w, p)) && WrittenAhead(AssemblyProtocol.Reconcile(w, p, answer))
  {
    hide Safe, WrittenAhead, ValidOutcome, Latest, ScopeOf, Readable;
    QuietAhead(w, p, Idle);
    InProduction(w);
    if At(w, p).Recovering? {
      var latest := Latest(w.tables, At(w, p).current.assemblyId);
      if latest.Some? && ScopeOf(At(w, p).current, CheckpointRef(latest.value)).Success? {
        QuietAhead(w, p, Asking(At(w, p).current, ScopeOf(At(w, p).current, CheckpointRef(latest.value)).value));
      }
    }
    if At(w, p).Asking? && answer.Some? && Readable(w.tables, answer.value.scope, answer.value) {
      QuietAhead(w, p, Resolved(At(w, p).current, answer.value));
    }
  }

  lemma InProduction(w: World)
    requires WrittenAhead(w)
    ensures w.production
  {
  }

  lemma SubmitAhead(w: World, p: nat, submission: SubmitRequest, admitted: seq<AdmittedInput>)
    requires Safe(w) && WrittenAhead(w)
    ensures WrittenAhead(Submit(w, p, submission, admitted))
  {
    hide Safe, Admission, TablesLawful, Written, Writable, LocalDurable, KeysSpent, Agreement, AllTerminal,
      CompletionsDurable, Extends, AnswersReadable;
    var first := Admission(submission, admitted);
    if first.Success? && Writable(w.tables, first.value, 0, None) {
      var c := first.value;
      var t' := Written(w.tables, c, None);
      SafeTables(w);
      SubmitExtends(w.tables, submission, admitted, c);
      WrittenFields(w.tables, c);
      SubmitKeeps(w, t', c);
      TablesAhead(w, t', p, Idle);
    }
  }

  lemma WrittenFields(t: Tables, c: Checkpoint)
    requires Writable(t, c, 0, None)
    ensures c.revision == 1
    ensures Written(t, c, None).effects == t.effects && Written(t, c, None).terminal == t.terminal
  {
  }

  lemma SubmitKeeps(w: World, t': Tables, c: Checkpoint)
    requires WrittenAhead(w) && Extends(w.tables, t', c) && c.outcomes == [] && c.revision == 1
    requires t'.effects == w.tables.effects && t'.terminal == w.tables.terminal
    ensures NoRetryRecorded(t') && KeysSpent(t', w.spent) && CompletionsDurable(t')
  {
    hide Agreement, LocalDurable, AnswersReadable, History, RowSound, TerminalOutcome, StartScope;
    CommitKeepsKeys(w, t', c);
    RowsBelowHead(t', c.assemblyId, 2);
    assert AllTerminal(c.outcomes);
    forall a, r | (a, r) in t'.rows && (a, r + 1) in t'.rows
                  && t'.rows[(a, r + 1)].payload.completed == t'.rows[(a, r)].payload.completed + 1
      ensures DurablyRecorded(t', t'.rows[(a, r)].payload, t'.rows[(a, r + 1)].payload)
    {
      assert RowSound(t', a, r);
      assert (a, r) in w.tables.rows && (a, r + 1) in w.tables.rows;
      assert DurablyRecorded(w.tables, w.tables.rows[(a, r)].payload, w.tables.rows[(a, r + 1)].payload);
    }
  }

  /** Every event of a production run keeps the write-ahead invariant. */
  lemma ApplyAhead(w: World, e: Event)
    requires Safe(w) && WrittenAhead(w)
    ensures WrittenAhead(Apply(w, e))
  {
    hide Safe, WrittenAhead, Submit, Load, Commit, Scope, Call, RecordEffect, Confirm, RecordTerminal, Ask,
      AssemblyProtocol.Reconcile, ValidOutcome, ValidAdvanceRequest;
    match e {
      case SubmitEvent(p, submission, admitted) => SubmitAhead(w, p, submission, admitted);
      case ClaimEvent(p) =>
        MovesAreTyped(w, p);
        if At(w, p).Loaded? { CommitAhead(w, p, ClaimMove(At(w, p).request)); }
      case StartEvent(p) =>
        if At(w, p).Holding? { CommitAhead(w, p, StartMove); }
      case CallEvent(p, ports) => CallAhead(w, p, ports);
      case RecordEffectEvent(p) => RecordEffectAhead(w, p);
      case RecordTerminalEvent(p) => RecordTerminalAhead(w, p);
      case CompleteEvent(p) =>
        if At(w, p).Recorded? { CommitAhead(w, p, ExecuteMove(At(w, p).ports)); }
      case ResolveEvent(p) =>
        MovesAreTyped(w, p);
        if At(w, p).Resolved? { CommitAhead(w, p, ReconcileMove(At(w, p).answer)); }
      case FinishEvent(p) =>
        if At(w, p).Holding? { CommitAhead(w, p, FinishMove); }
      case AskEvent(p) => AskAndReconcileAhead(w, p, None);
      case ReconcileEvent(p, answer) => AskAndReconcileAhead(w, p, answer);
      case LoadEvent(p, request) => LoadAhead(w, p, request);
      case ScopeEvent(p) => ScopeAhead(w, p);
      case ConfirmEvent(p) => ConfirmAhead(w, p);
      case CrashEvent(p) => CrashAhead(w, p);
    }
  }

  lemma {:induction false} RunAhead(w: World, events: seq<Event>)
    requires Safe(w) && WrittenAhead(w)
    ensures Safe(AssemblyProtocol.Run(w, events)) && WrittenAhead(AssemblyProtocol.Run(w, events))
    decreases |events|
  {
    hide Safe, WrittenAhead, Apply;
    if events != [] {
      ApplySafe(w, events[0]);
      ApplyAhead(w, events[0]);
      RunAhead(Apply(w, events[0]), events[1..]);
    }
  }

  lemma ProductionAhead(events: seq<Event>)
    ensures Safe(Reached(true, events)) && WrittenAhead(Reached(true, events))
  {
    hide Safe;
    GenesisSafe(true);
    RunAhead(Genesis(true), events);
  }

  // ---------------------------------------------------------------- results

  lemma AgreedAnswer(t: Tables, scope: ReconciliationRequest, answer: Outcome)
    requires Agreement(t) && Readable(t, scope, answer)
    ensures ReconcileAnswer(t, scope) == Success(Some(answer))
  {
  }

  /** Every completed slice of every production run has a durable outcome under the scope of the record
   *  that started it, carrying exactly the authority its completed checkpoint stores; reconciliation
   *  would answer with just that. */
  lemma CompletedSlicesAreDurable(events: seq<Event>, a: Uuid, r: nat)
    requires (a, r) in Reached(true, events).tables.rows && (a, r + 1) in Reached(true, events).tables.rows
    requires var rows := Reached(true, events).tables.rows;
      rows[(a, r + 1)].payload.completed == rows[(a, r)].payload.completed + 1
    ensures var t := Reached(true, events).tables;
      var started, done := t.rows[(a, r)].payload, t.rows[(a, r + 1)].payload;
      && StartScope(started).Success?
      && var scope := StartScope(started).value;
      && scope.startedRef == CheckpointRef(started)
      && ReconcileAnswer(t, scope) == Success(Some(TerminalOutcome(scope, done)))
  {
    hide Safe, Reached, StoredAuthority, NoRetryRecorded, KeysSpent, LocalDurable, Readable, Bound, ReconcileAnswer;
    var t := Reached(true, events).tables;
    ProductionAhead(events);
    assert DurablyRecorded(t, t.rows[(a, r)].payload, t.rows[(a, r + 1)].payload);
    AgreedAnswer(t, StartScope(t.rows[(a, r)].payload).value,
                 TerminalOutcome(StartScope(t.rows[(a, r)].payload).value, t.rows[(a, r + 1)].payload));
  }

  lemma {:induction false} TerminalOutcomesRetryNothing(outcomes: seq<Outcome>, ordinal: nat)
    requires AllTerminal(outcomes)
    ensures Retries(outcomes, Some(ordinal)) == 0
  {
    if outcomes != [] {
      TerminalOutcomesRetryNothing(outcomes[..|outcomes| - 1], ordinal);
    }
  }

  /** In production no run calls the effect of a slice twice, whatever crashes and interleavings occur. */
  lemma ProductionCallsAtMostOnce(events: seq<Event>, a: Uuid, ordinal: nat)
    ensures CallCount(Reached(true, events), a, ordinal) <= 1
  {
    hide Reached, Chronicle, RowsSound, AllTerminal, Agreement, KeysSpent, LocalDurable, CompletionsDurable,
      ReceiptsFor, Retries, ValidCheckpoint, LocalsFit, SpentStarts;
    var w := Reached(true, events);
    ProductionAhead(events);
    EffectCallsWithinReceipts(true, events, a, ordinal);
    if a in w.tables.heads {
      HeadIsLast(w.tables, a);
      TerminalOutcomesRetryNothing(Latest(w.tables, a).value.outcomes, ordinal);
    }
  }

  /** The two readback tables never disagree, and every entry belongs to a stored start marker. */
  lemma ReadbackTablesAgree(events: seq<Event>, k: ReadbackKey)
    ensures var w := Reached(true, events);
      && (k in w.tables.effects && k in w.tables.terminal ==> w.tables.effects[k] == w.tables.terminal[k])
      && (k in w.tables.effects || k in w.tables.terminal ==> KeySpent(w.tables, w.spent, k))
  {
    hide Safe, Reached, KeySpent, NoRetryRecorded, LocalDurable, CompletionsDurable, AnswersReadable;
    ProductionAhead(events);
  }
}
