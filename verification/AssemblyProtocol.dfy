/** Any number of controllers over one repository: every interleaving of their transactions and
 *  effect calls, with a crash possible between any two of them. */
module AssemblyProtocol {
  import opened Wrappers
  import opened AssemblyContracts
  import opened AssemblyTransitions
  import opened HistoryValidation
  import opened HistoryLaws
  import opened ControllerRuns
  import opened AssemblyRepository

  /** How far one `advance` call has come, with its local `current`. */
  datatype Local =
    | Idle
    | Loaded(request: AdvanceRequest, current: Checkpoint)
    | Holding(current: Checkpoint)
    | Started(current: Checkpoint)
    | Scoped(current: Checkpoint)
    | Called(current: Checkpoint, ports: Authorities)
    | Received(current: Checkpoint, ports: Authorities)
    | Confirmed(current: Checkpoint, ports: Authorities)
    | Recorded(current: Checkpoint, ports: Authorities)
    | Recovering(current: Checkpoint)
    | Asking(current: Checkpoint, scope: ReconciliationRequest)
    | Resolved(current: Checkpoint, answer: Outcome)

  /** `calls` counts effect calls per slice; `spent` remembers which start markers were used for one. */
  datatype World = World(
    production: bool, tables: Tables, locals: map<nat, Local>, calls: map<(Uuid, nat), nat>,
    spent: set<(Uuid, nat)>)

  datatype Event =
    | SubmitEvent(p: nat, submission: SubmitRequest, admitted: seq<AdmittedInput>)
    | LoadEvent(p: nat, request: AdvanceRequest)
    | ClaimEvent(p: nat)
    | StartEvent(p: nat)
    | ScopeEvent(p: nat)
    | CallEvent(p: nat, ports: Authorities)
    | RecordEffectEvent(p: nat)
    | ConfirmEvent(p: nat)
    | RecordTerminalEvent(p: nat)
    | CompleteEvent(p: nat)
    | AskEvent(p: nat)
    | ReconcileEvent(p: nat, answer: Option<Outcome>)
    | ResolveEvent(p: nat)
    | FinishEvent(p: nat)
    | CrashEvent(p: nat)

  function At(w: World, p: nat): Local {
    if p in w.locals then w.locals[p] else Idle
  }

  function Moved(w: World, p: nat, next: Local): World {
    w.(locals := w.locals[p := next])
  }

  // ---------------------------------------------------------------- reading and writing

  function Latest(t: Tables, a: Uuid): Option<Checkpoint> {
    if a in t.heads && (a, t.heads[a].latest) in t.rows then Some(t.rows[(a, t.heads[a].latest)].payload) else None
  }

  /** The stored history of an assembly passes the validator. */
  ghost predicate ReadsBack(t: Tables, a: Uuid) {
    RowsSound(t) && AcceptedHistory(a, History(t, a))
  }

  /** Where a call goes on once this move is committed. */
  function After(move: Move, c: Checkpoint): Local {
    match move
    case StartMove => Started(c)
    case FinishMove => Idle
    case _ => Holding(c)
  }

  /** A retry receipt is consumed by the same transaction that clears its slice. */
  function ConsumedBy(move: Move): Option<RetryAuthorization> {
    if move.ReconcileMove? && move.answer.disposition == RetryAuthorizedNoEffect then move.answer.retry else None
  }

  /** Append what `move` makes of the local checkpoint; a refused move or a lost race ends the call. */
  function Commit(w: World, p: nat, move: Move): World
    requires !At(w, p).Idle?
  {
    var current := At(w, p).current;
    match Next(current, move)
    case Failure(_) => Moved(w, p, Idle)
    case Success(c) =>
      if Writable(w.tables, c, current.revision, ConsumedBy(move)) then
        Moved(w.(tables := Written(w.tables, c, ConsumedBy(move))), p, After(move, c))
      else
        Moved(w, p, Idle)
  }

  /** Admit a new assembly; a refused admission or a taken identity leaves everything as it was. */
  function Submit(w: World, p: nat, submission: SubmitRequest, admitted: seq<AdmittedInput>): World {
    if !At(w, p).Idle? then w
    else
      match Admission(submission, admitted)
      case Failure(_) => w
      case Success(c) =>
        if Writable(w.tables, c, 0, None) then Moved(w.(tables := Written(w.tables, c, None)), p, Idle) else w
  }

  /** Read the history, check the request against it, and decide what the call has to do. `advance` reads
   *  once more before its claim does; that earlier read can only end the call sooner and is no step here. */
  ghost function Load(w: World, p: nat, request: AdvanceRequest): World {
    var latest := Latest(w.tables, request.assemblyId);
    if !At(w, p).Idle? || !ValidAdvanceRequest(request) || latest.None? || !ReadsBack(w.tables, request.assemblyId) then
      w
    else
      var current := latest.value;
      if request.requestSha != current.requestSha
         || (current.active.Some? && current.active.value.operationId != request.operationId)
         || ReceiptOf(current, request.operationId).Some? then
        w
      else if current.active.None? then
        Moved(w, p, Loaded(request, current))
      else if current.active.value.requestSha != request.requestSha
              || current.active.value.maximum != request.maximum then
        w
      else if current.started.None? then
        Moved(w, p, Holding(current))
      else
        Moved(w, p, Recovering(current))
  }

  // ---------------------------------------------------------------- effects

  /** What the controller checks before it reaches the port of the started slice. */
  predicate Callable(current: Checkpoint) {
    && |current.items| == INPUTS
    && current.started.Some?
    && match current.started.value.kind
       case InputStage(stage) =>
         var index := current.completed / STAGES_PER_INPUT;
         && index < INPUTS
         && RequireStageRequest(current, current.items[index]).Pass?
         && (stage == Execute ==> current.items[index].releaseAuthority.Some?)
         && (stage == Project ==>
               current.items[index].releaseAuthority.Some? && current.items[index].executionAuthority.Some?)
       case ResumeAuthorize =>
         var first := current.items[0].evidence;
         first.Some? && first.value.commandId.Some? && first.value.resultId.Some?
       case ResumeDispatch => current.resumeAuthorization.Some?
       case ResumeReadback => current.resumeAuthorization.Some? && current.resumeDispatch.Some?
  }

  function TokenOf(c: Checkpoint): (Uuid, nat) {
    (c.assemblyId, c.revision)
  }

  function CallCount(w: World, a: Uuid, ordinal: nat): nat {
    if (a, ordinal) in w.calls then w.calls[(a, ordinal)] else 0
  }

  /** The start marker is still the latest record of a history that reads back. */
  ghost predicate StillLatest(t: Tables, current: Checkpoint) {
    Latest(t, current.assemblyId) == Some(current) && ReadsBack(t, current.assemblyId)
  }

  /** The checks before the port; an input stage also re-reads its history for the effect scope. */
  ghost function Scope(w: World, p: nat): World {
    if !At(w, p).Started? then w
    else
      var current := At(w, p).current;
      if Callable(current) && (current.completed < INPUT_SLICES ==> StillLatest(w.tables, current)) then
        Moved(w, p, Scoped(current))
      else
        Moved(w, p, Idle)
  }

  /** Reach the port, which answers anything; the effect has happened from here on. */
  function Call(w: World, p: nat, ports: Authorities): World {
    if !At(w, p).Scoped? then w
    else
      var current := At(w, p).current;
      Moved(w.(calls := w.calls[(current.assemblyId, current.completed) :=
                                  CallCount(w, current.assemblyId, current.completed) + 1],
               spent := w.spent + {TokenOf(current)}), p, Called(current, ports))
  }

  function StartScope(started: Checkpoint): Result<ReconciliationRequest> {
    ScopeOf(started, CheckpointRef(started))
  }

  /** The port's own field of an answer, as the effect adapter files it. */
  function PortField(kind: SliceKind, ports: Authorities): Authorities {
    match kind
    case InputStage(Evaluate) => NO_AUTHORITY.(benchmark := ports.benchmark)
    case InputStage(Execute) => NO_AUTHORITY.(execution := ports.execution)
    case InputStage(Project) => NO_AUTHORITY.(projection := ports.projection)
    case InputStage(_) => NO_AUTHORITY.(factory := ports.factory)
    case ResumeAuthorize => NO_AUTHORITY.(resume := ports.resume)
    case _ => NO_AUTHORITY.(execution := ports.execution)
  }

  function EffectOutcome(scope: ReconciliationRequest, ports: Authorities): Outcome {
    Outcome(scope, TerminalReadback, None, PortField(scope.startedSlice.kind, ports))
  }

  /** The receipt-bound adapters of the production composition persist the answer before returning it. */
  ghost function RecordEffect(w: World, p: nat): World {
    if !At(w, p).Called? then w
    else
      var Called(current, ports) := At(w, p);
      if !w.production || current.completed >= INPUT_SLICES then Moved(w, p, Received(current, ports))
      else
        match StartScope(current)
        case Failure(_) => Moved(w, p, Idle)
        case Success(scope) =>
          var outcome := EffectOutcome(scope, ports);
          if ValidOutcome(outcome) && Recordable(w.tables, EffectReceipts, scope, outcome) then
            Moved(w.(tables := AssemblyRepository.Recorded(w.tables, EffectReceipts, outcome)), p,
                  Received(current, ports))
          else
            Moved(w, p, Idle)
  }

  /** The authority a completed checkpoint stores for this slice. */
  function StoredAuthority(slice: Slice, done: Checkpoint): Authorities {
    match slice.kind
    case ResumeAuthorize => NO_AUTHORITY.(resume := done.resumeAuthorization)
    case ResumeDispatch => NO_AUTHORITY.(execution := done.resumeDispatch)
    case ResumeReadback => NO_AUTHORITY.(execution := done.resumeReadback)
    case InputStage(stage) =>
      if slice.inputId.None? || ItemIndex(done.items, slice.inputId.value) == |done.items| then NO_AUTHORITY
      else
        var item := done.items[ItemIndex(done.items, slice.inputId.value)];
        match stage
        case Evaluate => NO_AUTHORITY.(benchmark := item.benchmarkAuthority)
        case Promote => NO_AUTHORITY.(factory := item.releaseAuthority)
        case Execute => NO_AUTHORITY.(execution := item.executionAuthority)
        case Project => NO_AUTHORITY.(projection := item.projectionAuthority)
        case _ => NO_AUTHORITY.(factory := item.stageAuthority)
  }

  function TerminalOutcome(scope: ReconciliationRequest, done: Checkpoint): Outcome {
    Outcome(scope, TerminalReadback, None, StoredAuthority(scope.startedSlice, done))
  }

  /** Check the answer against the checkpoint it completes; in production re-read the history. */
  ghost function Confirm(w: World, p: nat): World {
    if !At(w, p).Received? then w
    else
      var Received(current, ports) := At(w, p);
      if Next(current, ExecuteMove(ports)).Success? && (w.production ==> StillLatest(w.tables, current)) then
        Moved(w, p, Confirmed(current, ports))
      else
        Moved(w, p, Idle)
  }

  /** The production reconciliation records the result as terminal before the checkpoint is written. */
  ghost function RecordTerminal(w: World, p: nat): World {
    if !At(w, p).Confirmed? then w
    else
      var Confirmed(current, ports) := At(w, p);
      if !w.production then Moved(w, p, Recorded(current, ports))
      else
        match (Next(current, ExecuteMove(ports)), StartScope(current))
        case (Success(done), Success(scope)) =>
          var outcome := TerminalOutcome(scope, done);
          if ValidOutcome(outcome) && Recordable(w.tables, TerminalReadbacks, scope, outcome) then
            Moved(w.(tables := AssemblyRepository.Recorded(w.tables, TerminalReadbacks, outcome)), p,
                  Recorded(current, ports))
          else
            Moved(w, p, Idle)
        case _ => Moved(w, p, Idle)
  }

  // ---------------------------------------------------------------- reconciliation

  /** Scope the question with the latest record, which need not be the one this call loaded. */
  function Ask(w: World, p: nat): World {
    if !At(w, p).Recovering? then w
    else
      var current := At(w, p).current;
      var latest := Latest(w.tables, current.assemblyId);
      if latest.None? then Moved(w, p, Idle)
      else
        match ScopeOf(current, CheckpointRef(latest.value))
        case Failure(_) => Moved(w, p, Idle)
        case Success(scope) => Moved(w, p, Asking(current, scope))
  }

  /** One of the two tables answers for this scope; they are read in separate transactions. */
  predicate Readable(t: Tables, scope: ReconciliationRequest, answer: Outcome) {
    ReadbackOf(t, EffectReceipts, scope) == Success(Some(answer))
    || ReadbackOf(t, TerminalReadbacks, scope) == Success(Some(answer))
  }

  /** In production only the readback tables answer; otherwise any valid outcome may come back. */
  function Reconcile(w: World, p: nat, answer: Option<Outcome>): World {
    if !At(w, p).Asking? then w
    else
      var Asking(current, scope) := At(w, p);
      if answer.Some? && ValidOutcome(answer.value) && answer.value.scope == scope
         && (w.production ==> Readable(w.tables, scope, answer.value)) then
        Moved(w, p, Resolved(current, answer.value))
      else
        Moved(w, p, Idle)
  }

  // ---------------------------------------------------------------- one step, and runs

  ghost function Apply(w: World, e: Event): World {
    match e
    case SubmitEvent(p, submission, admitted) => Submit(w, p, submission, admitted)
    case LoadEvent(p, request) => Load(w, p, request)
    case ClaimEvent(p) =>
      if At(w, p).Loaded? then Commit(w, p, ClaimMove(At(w, p).request)) else w
    case StartEvent(p) =>
      if At(w, p).Holding? then Commit(w, p, StartMove) else w
    case ScopeEvent(p) => Scope(w, p)
    case CallEvent(p, ports) => Call(w, p, ports)
    case RecordEffectEvent(p) => RecordEffect(w, p)
    case ConfirmEvent(p) => Confirm(w, p)
    case RecordTerminalEvent(p) => RecordTerminal(w, p)
    case CompleteEvent(p) =>
      if At(w, p).Recorded? then Commit(w, p, ExecuteMove(At(w, p).ports)) else w
    case AskEvent(p) => Ask(w, p)
    case ReconcileEvent(p, answer) => Reconcile(w, p, answer)
    case ResolveEvent(p) =>
      if At(w, p).Resolved? then Commit(w, p, ReconcileMove(At(w, p).answer)) else w
    case FinishEvent(p) =>
      if At(w, p).Holding? then Commit(w, p, FinishMove) else w
    case CrashEvent(p) => Moved(w, p, Idle)
  }

  ghost function Run(w: World, events: seq<Event>): World
    decreases |events|
  {
    if events == [] then w else Run(Apply(w, events[0]), events[1..])
  }

  function Genesis(production: bool): World {
    World(production, Tables(map[], map[], map[], map[], map[]), map[], map[], {})
  }
}
