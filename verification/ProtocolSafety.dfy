/** Safety of the assembly protocol over every run, under every interleaving and every crash: what is
 *  stored is always accepted and lawful, and effects are called no more often than receipts allow. */
module ProtocolSafety {
  import opened Wrappers
  import opened AssemblyContracts
  import opened AssemblyTransitions
  import opened HistoryValidation
  import opened HistoryLaws
  import opened AuthorityLaws
  import opened ControllerRuns
  import opened AssemblyRepository
  import opened AssemblyProtocol

  // ---------------------------------------------------------------- stored histories

  /** A history as controllers write it: accepted, from a clean start, of lawful checkpoints whose
   *  items only move forward. */
  ghost predicate Chronicle(a: Uuid, h: seq<Record>) {
    && AcceptedHistory(a, h)
    && CleanStart(h[0].checkpoint)
    && (forall i :: 0 <= i < |h| ==> Lawful(h[i].checkpoint))
    && (forall i :: 0 < i < |h| ==> ItemsAdvance(h[i - 1].checkpoint, h[i].checkpoint))
  }

  /** A record that is sound by itself and follows the last one extends an accepted history. */
  lemma AcceptedExtends(a: Uuid, h: seq<Record>, r: Record)
    requires AcceptedHistory(a, h) && ValidCheckpoint(r.checkpoint)
    requires RecordAccepted(a, h[0].checkpoint, r, |h| + 1) && TransitionAccepted(h[|h| - 1], r)
    ensures AcceptedHistory(a, h + [r])
  {
    hide TransitionAccepted, ValidCheckpoint, RecordAccepted, FirstAccepted;
    var h' := h + [r];
    forall i | 0 <= i < |h'|
      ensures AcceptedAt(a, h', i)
    {
      if i < |h| {
        assert AcceptedAt(a, h, i);
      }
    }
  }

  lemma ChronicleExtends(a: Uuid, h: seq<Record>, c: Checkpoint)
    requires Chronicle(a, h) && Lawful(c)
    requires h[|h| - 1] == RecordOf(h[|h| - 1].checkpoint) && Follows(h[|h| - 1].checkpoint, c)
    requires ItemsAdvance(h[|h| - 1].checkpoint, c)
    ensures Chronicle(a, h + [RecordOf(c)])
  {
    hide ItemsAdvance, Lawful, AcceptedAt, Decoded, Follows, FirstAccepted, CleanStart, ValidCheckpoint,
      TransitionAccepted, RecordAccepted;
    LastRecordFacts(a, h, c);
    AcceptedExtends(a, h, RecordOf(c));
  }

  lemma LastRecordFacts(a: Uuid, h: seq<Record>, c: Checkpoint)
    requires AcceptedHistory(a, h)
    requires Follows(h[|h| - 1].checkpoint, c) && h[|h| - 1] == RecordOf(h[|h| - 1].checkpoint)
    ensures RecordAccepted(a, h[0].checkpoint, RecordOf(c), |h| + 1)
    ensures TransitionAccepted(h[|h| - 1], RecordOf(c))
    ensures ValidCheckpoint(c)
  {
    hide TransitionAccepted, ValidCheckpoint, ShapeAccepted, FirstAccepted;
    AcceptedStep(a, h, |h| - 1);
  }

  /** A submitted checkpoint starts a chronicle. */
  lemma AdmissionStarts(submission: SubmitRequest, admitted: seq<AdmittedInput>, c: Checkpoint)
    requires Admission(submission, admitted) == Success(c)
    ensures Chronicle(c.assemblyId, [RecordOf(c)]) && ValidCheckpoint(c) && c.outcomes == []
  {
    AdmittedIsLawful(submission, admitted, c);
    hide Admission, Lawful, ValidCheckpoint, ShapeAccepted;
    var h := [RecordOf(c)];
    assert AcceptedAt(c.assemblyId, h, 0);
  }

  lemma AdmittedIsLawful(submission: SubmitRequest, admitted: seq<AdmittedInput>, c: Checkpoint)
    requires Admission(submission, admitted) == Success(c)
    ensures Lawful(c) && FirstAccepted(c.assemblyId, c) && ShapeAccepted(c) && ValidCheckpoint(c)
    ensures CleanStart(c) && c.outcomes == []
  {
    hide ValidSubmit, ValidOutcome, ValidReceipt, ValidActive;
    assert Sources(c) == admitted;
    LexicographicStart(c);
    forall i | 0 <= i < INPUTS
      ensures ItemLawful(c.items[i])
    {
    }
  }

  ghost predicate TablesLawful(t: Tables) {
    Sound(t) && forall a :: a in t.heads ==> Chronicle(a, History(t, a))
  }

  /** Every retry outcome's receipt is in the table of consumed receipts, under its own assembly. */
  predicate Consumed(retries: map<Uuid, RetryRow>, a: Uuid, outcomes: seq<Outcome>) {
    forall i :: 0 <= i < |outcomes| && outcomes[i].disposition == RetryAuthorizedNoEffect ==>
      && outcomes[i].retry.Some?
      && outcomes[i].retry.value.receiptId in retries
      && retries[outcomes[i].retry.value.receiptId].authorization == outcomes[i].retry.value
      && retries[outcomes[i].retry.value.receiptId].assemblyId == a
  }

  predicate RetriesConsumed(t: Tables) {
    forall k :: k in t.rows ==> Consumed(t.retries, k.0, t.rows[k].payload.outcomes)
  }

  predicate Stored(t: Tables, c: Checkpoint) {
    (c.assemblyId, c.revision) in t.rows && t.rows[(c.assemblyId, c.revision)].payload == c
  }

  /** A stored checkpoint is the record its revision names. */
  lemma StoredIsRecord(t: Tables, c: Checkpoint)
    requires RowsSound(t) && Stored(t, c)
    ensures c.assemblyId in t.heads && 1 <= c.revision <= |History(t, c.assemblyId)|
    ensures History(t, c.assemblyId)[c.revision - 1] == RecordOf(c)
  {
    hide RowSound;
  }

  lemma StoredIsLawful(t: Tables, c: Checkpoint)
    requires TablesLawful(t) && Stored(t, c)
    ensures Lawful(c)
  {
    hide Lawful, RowsSound, KeysUnique, RetriesSound, ReadbacksSound, AcceptedHistory;
    StoredIsRecord(t, c);
    assert Chronicle(c.assemblyId, History(t, c.assemblyId));
  }

  // ---------------------------------------------------------------- committed moves

  /** The tables after one committed checkpoint, as every other part of the world sees them. */
  ghost predicate Extends(t: Tables, t': Tables, c: Checkpoint) {
    && RowsSound(t) && RowsSound(t')
    && (c.assemblyId, c.revision) !in t.rows
    && t'.rows == t.rows[(c.assemblyId, c.revision) := Row(OfCheckpoint(c), c)]
    && |History(t, c.assemblyId)| + 1 == c.revision
    && forall a :: History(t', a) == History(t, a) + if a == c.assemblyId then [RecordOf(c)] else []
  }

  /** What a move commits: the tables stay lawful and grow by exactly this checkpoint. */
  lemma CommitExtends(
    t: Tables, current: Checkpoint, move: Move, authorization: Option<RetryAuthorization>, c: Checkpoint)
    requires TablesLawful(t) && Stored(t, current) && TypedMove(move) && Next(current, move) == Success(c)
    requires Writable(t, c, current.revision, authorization)
    requires authorization.Some? ==> Books(c, authorization.value)
    ensures Follows(current, c) && Lawful(c) && Stored(Written(t, c, authorization), c)
    ensures TablesLawful(Written(t, c, authorization)) && Extends(t, Written(t, c, authorization), c)
  {
    hide Lawful, Next, Chronicle, RowsSound, KeysUnique, RetriesSound, ReadbacksSound, ValidCheckpoint, Books;
    StoredIsLawful(t, current);
    NextKeepsLaws(current, move, c);
    FollowsBasics(current, c);
    WriteExtends(t, c, current.revision, authorization);
    StoredIsRecord(t, current);
    forall a | a in Written(t, c, authorization).heads
      ensures Chronicle(a, History(Written(t, c, authorization), a))
    {
      if a == c.assemblyId {
        ChronicleLast(t, a, current);
        ChronicleExtends(a, History(t, a), c);
      } else {
        assert History(t, a) + [] == History(t, a);
      }
    }
  }

  lemma ChronicleLast(t: Tables, a: Uuid, current: Checkpoint)
    requires TablesLawful(t) && Stored(t, current) && a == current.assemblyId
    requires |History(t, a)| == current.revision
    ensures Chronicle(a, History(t, a)) && current.revision >= 1
    ensures History(t, a)[|History(t, a)| - 1] == RecordOf(current)
  {
    hide Chronicle, KeysUnique, RetriesSound, ReadbacksSound;
    StoredIsRecord(t, current);
  }

  lemma FollowsBasics(prior: Checkpoint, c: Checkpoint)
    requires Follows(prior, c)
    ensures ValidCheckpoint(c) && c.assemblyId == prior.assemblyId && c.revision == prior.revision + 1
  {
    hide ValidCheckpoint, ShapeAccepted, TransitionAccepted;
  }

  lemma WriteExtends(t: Tables, c: Checkpoint, expected: nat, authorization: Option<RetryAuthorization>)
    requires Sound(t) && ValidCheckpoint(c) && Writable(t, c, expected, authorization)
    requires authorization.Some? ==> Books(c, authorization.value)
    ensures Sound(Written(t, c, authorization)) && Stored(Written(t, c, authorization), c)
    ensures Extends(t, Written(t, c, authorization), c)
    ensures |History(t, c.assemblyId)| == expected
  {
    hide RowsSound, KeysUnique, RetriesSound, ReadbacksSound, ValidCheckpoint, Books, History, KeyTaken, RetryTaken;
    WrittenKeepsSound(t, c, expected, authorization);
    NextRowFree(t, c.assemblyId, expected);
    forall a
      ensures History(Written(t, c, authorization), a)
           == History(t, a) + if a == c.assemblyId then [RecordOf(c)] else []
    {
      WrittenAppends(t, c, expected, authorization, a);
    }
    WrittenAppends(t, c, expected, authorization, c.assemblyId);
  }

  lemma SubmitExtends(t: Tables, submission: SubmitRequest, admitted: seq<AdmittedInput>, c: Checkpoint)
    requires TablesLawful(t) && Admission(submission, admitted) == Success(c) && Writable(t, c, 0, None)
    ensures TablesLawful(Written(t, c, None)) && Extends(t, Written(t, c, None), c)
    ensures c.outcomes == []
  {
    hide Admission, Chronicle, RowsSound, KeysUnique, RetriesSound, ReadbacksSound, ValidCheckpoint;
    AdmissionStarts(submission, admitted, c);
    WriteExtends(t, c, 0, None);
    forall a | a in Written(t, c, None).heads
      ensures Chronicle(a, History(Written(t, c, None), a))
    {
      if a == c.assemblyId {
        assert [] + [RecordOf(c)] == [RecordOf(c)];
      } else {
        assert History(t, a) + [] == History(t, a);
      }
    }
  }

  // ---------------------------------------------------------------- counting calls

  /** Start markers of one slice that were used for an effect call. */
  function SpentStarts(h: seq<Record>, a: Uuid, spent: set<(Uuid, nat)>, ordinal: nat): nat {
    if h == [] then 0
    else
      var n := |h| - 1;
      SpentStarts(h[..n], a, spent, ordinal) + if (a, n + 1) in spent then StartedAt(h[n].checkpoint, ordinal) else 0
  }

  lemma {:induction false} SpentWithinStarts(h: seq<Record>, a: Uuid, spent: set<(Uuid, nat)>, ordinal: nat)
    ensures SpentStarts(h, a, spent, ordinal) <= Starts(h, ordinal)
  {
    if h != [] {
      SpentWithinStarts(h[..|h| - 1], a, spent, ordinal);
    }
  }

  lemma SpentAppend(h: seq<Record>, r: Record, a: Uuid, spent: set<(Uuid, nat)>, ordinal: nat)
    requires (a, |h| + 1) !in spent
    ensures SpentStarts(h + [r], a, spent, ordinal) == SpentStarts(h, a, spent, ordinal)
  {
    assert (h + [r])[..|h|] == h;
  }

  /** Using one more start marker counts once, at its own slice of its own assembly. */
  lemma {:induction false} SpentOnce(
    h: seq<Record>, a: Uuid, spent: set<(Uuid, nat)>, token: (Uuid, nat), ordinal: nat)
    requires token !in spent
    ensures SpentStarts(h, a, spent + {token}, ordinal) == SpentStarts(h, a, spent, ordinal)
      + if token.0 == a && 1 <= token.1 <= |h| then StartedAt(h[token.1 - 1].checkpoint, ordinal) else 0
  {
    if h != [] {
      SpentOnce(h[..|h| - 1], a, spent, token, ordinal);
    }
  }

  // ---------------------------------------------------------------- the invariant

  /** The process has a start marker of its own. */
  predicate Owns(l: Local) {
    l.Started? || l.Scoped? || l.Called? || l.Received? || l.Confirmed? || l.Recorded?
  }

  ghost predicate LocalFits(t: Tables, spent: set<(Uuid, nat)>, l: Local) {
    && (!l.Idle? ==> Stored(t, l.current))
    && (l.Loaded? ==> ValidAdvanceRequest(l.request))
    && (Owns(l) ==> l.current.started.Some?)
    && (Owns(l) ==> (TokenOf(l.current) in spent <==> !l.Started? && !l.Scoped?))
    && (l.Resolved? ==> ValidOutcome(l.answer))
  }

  predicate OwnersDiffer(l: Local, other: Local) {
    Owns(l) && Owns(other) ==> TokenOf(l.current) != TokenOf(other.current)
  }

  ghost predicate LocalsFit(w: World) {
    && (forall p :: p in w.locals ==> LocalFits(w.tables, w.spent, w.locals[p]))
    && (forall p, q :: p in w.locals && q in w.locals && p != q ==> OwnersDiffer(w.locals[p], w.locals[q]))
  }

  ghost predicate SpentStored(t: Tables, spent: set<(Uuid, nat)>) {
    forall token :: token in spent ==> token in t.rows
  }

  ghost predicate CallsCounted(w: World)
    requires RowsSound(w.tables)
  {
    forall a, k :: CallCount(w, a, k) == SpentStarts(History(w.tables, a), a, w.spent, k)
  }

  ghost predicate Safe(w: World) {
    && TablesLawful(w.tables)
    && RetriesConsumed(w.tables)
    && LocalsFit(w)
    && SpentStored(w.tables, w.spent)
    && CallsCounted(w)
  }

  // ---------------------------------------------------------------- steps that commit a checkpoint

  lemma CommitCounts(w: World, t': Tables, c: Checkpoint, a: Uuid, ordinal: nat)
    requires Extends(w.tables, t', c) && SpentStored(w.tables, w.spent)
    ensures SpentStarts(History(t', a), a, w.spent, ordinal) == SpentStarts(History(w.tables, a), a, w.spent, ordinal)
  {
    hide RowsSound, History, SpentStarts;
    if a == c.assemblyId {
      SpentAppend(History(w.tables, a), RecordOf(c), a, w.spent, ordinal);
    } else {
      assert History(w.tables, a) + [] == History(w.tables, a);
    }
  }

  lemma CommitKeepsLocals(w: World, t': Tables, c: Checkpoint, p: nat, l: Local)
    requires LocalsFit(w) && SpentStored(w.tables, w.spent) && Extends(w.tables, t', c)
    requires l.Idle? || ((l.Holding? || (l.Started? && c.started.Some?)) && l.current == c)
    ensures LocalsFit(Moved(w.(tables := t'), p, l))
  {
    hide RowsSound, History, ValidOutcome;
  }

  /** A committed checkpoint keeps the invariant, whoever commits it. */
  lemma CommitKeepsSafe(w: World, t': Tables, c: Checkpoint, p: nat, l: Local)
    requires Safe(w) && Extends(w.tables, t', c) && TablesLawful(t') && RetriesConsumed(t')
    requires l.Idle? || ((l.Holding? || (l.Started? && c.started.Some?)) && l.current == c)
    ensures Safe(Moved(w.(tables := t'), p, l))
  {
    hide Chronicle, Sound, RowsSound, RetriesConsumed, History, SpentStarts, LocalsFit;
    CommitKeepsLocals(w, t', c, p, l);
    forall a, k
      ensures CallCount(w, a, k) == SpentStarts(History(t', a), a, w.spent, k)
    {
      CommitCounts(w, t', c, a, k);
    }
  }

  /** A retry outcome enters a history together with its consumed receipt. */
  lemma CommitConsumes(t: Tables, current: Checkpoint, move: Move, c: Checkpoint)
    requires RetriesConsumed(t) && Stored(t, current) && TypedMove(move)
    requires Bookkeeping(current, move, c) && c.assemblyId == current.assemblyId
    requires Writable(t, c, current.revision, ConsumedBy(move))
    ensures RetriesConsumed(Written(t, c, ConsumedBy(move)))
    ensures ConsumedBy(move).Some? ==> Books(c, ConsumedBy(move).value)
  {
    hide KeyTaken;
    var t' := Written(t, c, ConsumedBy(move));
    assert Consumed(t.retries, current.assemblyId, current.outcomes);
    forall k | k in t'.rows
      ensures Consumed(t'.retries, k.0, t'.rows[k].payload.outcomes)
    {
      if k in t.rows {
        assert Consumed(t.retries, k.0, t.rows[k].payload.outcomes);
      }
    }
    if ConsumedBy(move).Some? {
      assert c.outcomes[|current.outcomes|].retry == ConsumedBy(move);
    }
  }

  lemma CommitSafe(w: World, p: nat, move: Move)
    requires Safe(w) && !At(w, p).Idle? && TypedMove(move)
    ensures Safe(Commit(w, p, move))
  {
    hide Next, TablesLawful, RetriesConsumed, SpentStarts, Bookkeeping, Lawful, Follows, Extends, Stored, ValidOutcome,
      ValidCheckpoint, Writable, Written, CallsCounted, LocalsFit, SpentStored, After, RowsSound;
    LocalIsStored(w, p);
    var current := At(w, p).current;
    var next := Next(current, move);
    StepIdle(w, p);
    if next.Success? && Writable(w.tables, next.value, current.revision, ConsumedBy(move)) {
      var c := next.value;
      var t' := Written(w.tables, c, ConsumedBy(move));
      NextBookkeeping(current, move, c);
      StoredIsLawful(w.tables, current);
      NextKeepsLaws(current, move, c);
      FollowsBasics(current, c);
      CommitConsumes(w.tables, current, move, c);
      CommitExtends(w.tables, current, move, ConsumedBy(move), c);
      AfterStart(current, move, c);
      CommitKeepsSafe(w, t', c, p, After(move, c));
    }
  }

  /** Where a committed move leaves its process. */
  lemma AfterStart(current: Checkpoint, move: Move, c: Checkpoint)
    requires Next(current, move) == Success(c)
    ensures var l := After(move, c);
      l.Idle? || ((l.Holding? || (l.Started? && c.started.Some?)) && l.current == c)
  {
    hide ValidCheckpoint, ExecuteSlice, AssemblyTransitions.Reconcile;
  }

  lemma LocalIsStored(w: World, p: nat)
    requires Safe(w) && !At(w, p).Idle?
    ensures Stored(w.tables, At(w, p).current) && TablesLawful(w.tables) && RetriesConsumed(w.tables)
  {
    hide TablesLawful, RetriesConsumed, SpentStored, CallsCounted;
    assert LocalFits(w.tables, w.spent, w.locals[p]);
  }

  lemma StepIdle(w: World, p: nat)
    requires Safe(w)
    ensures Safe(Moved(w, p, Idle))
  {
    hide Chronicle, Sound, RowsSound, RetriesConsumed, SpentStarts, Stored, TablesLawful, SpentStored;
    StepLocal(w, p, Idle);
  }

  lemma SafeTables(w: World)
    requires Safe(w)
    ensures TablesLawful(w.tables) && RetriesConsumed(w.tables) && Sound(w.tables) && RowsSound(w.tables)
  {
    hide RowsSound, RetriesConsumed, Chronicle, LocalsFit, SpentStored, CallsCounted;
  }

  lemma MoveKeepsLocals(w: World, p: nat, l: Local)
    requires LocalsFit(w) && LocalFits(w.tables, w.spent, l)
    requires Owns(l) ==> Owns(At(w, p)) && l.current == At(w, p).current
    ensures LocalsFit(Moved(w, p, l))
  {
    hide LocalFits;
  }

  lemma MoveKeepsCounts(w: World, p: nat, l: Local)
    requires RowsSound(w.tables) && CallsCounted(w)
    ensures CallsCounted(Moved(w, p, l))
  {
    hide RowsSound, SpentStarts, History;
    forall a, k
      ensures CallCount(Moved(w, p, l), a, k) == SpentStarts(History(w.tables, a), a, w.spent, k)
    {
      assert CallCount(w, a, k) == SpentStarts(History(w.tables, a), a, w.spent, k);
    }
  }

  /** A step that only moves one process, which gains no start marker by it. */
  lemma StepLocal(w: World, p: nat, l: Local)
    requires Safe(w) && LocalFits(w.tables, w.spent, l)
    requires Owns(l) ==> Owns(At(w, p)) && l.current == At(w, p).current
    ensures Safe(Moved(w, p, l))
  {
    hide TablesLawful, RetriesConsumed, CallsCounted, LocalsFit, LocalFits, RowsSound, SpentStored;
    SafeTables(w);
    MoveKeepsLocals(w, p, l);
    MoveKeepsCounts(w, p, l);
  }

  lemma SubmitSafe(w: World, p: nat, submission: SubmitRequest, admitted: seq<AdmittedInput>)
    requires Safe(w)
    ensures Safe(Submit(w, p, submission, admitted))
  {
    hide Admission, TablesLawful, RetriesConsumed, Written, Writable, Safe, Extends, RowsSound;
    SafeTables(w);
    var first := Admission(submission, admitted);
    if first.Success? && Writable(w.tables, first.value, 0, None) {
      SubmitExtends(w.tables, submission, admitted, first.value);
      SubmitConsumes(w.tables, first.value);
      CommitKeepsSafe(w, Written(w.tables, first.value, None), first.value, p, Idle);
    }
  }

  lemma SubmitConsumes(t: Tables, c: Checkpoint)
    requires RetriesConsumed(t) && c.outcomes == []
    ensures RetriesConsumed(Written(t, c, None))
  {
    forall k | k in Written(t, c, None).rows
      ensures Consumed(t.retries, k.0, Written(t, c, None).rows[k].payload.outcomes)
    {
      if k in t.rows {
        assert Consumed(t.retries, k.0, t.rows[k].payload.outcomes);
      }
    }
  }

  // ---------------------------------------------------------------- steps without a commit

  /** What the head points to is stored. */
  lemma LatestIsStored(t: Tables, a: Uuid)
    requires RowsSound(t) && Latest(t, a).Some?
    ensures Stored(t, Latest(t, a).value) && Latest(t, a).value.assemblyId == a
  {
    assert RowSound(t, a, t.heads[a].latest);
  }

  lemma LoadSafe(w: World, p: nat, request: AdvanceRequest)
    requires Safe(w)
    ensures Safe(Load(w, p, request))
  {
    hide Safe, ReadsBack, RowsSound, Latest, Stored, LocalFits, Load;
    SafeTables(w);
    var next := Load(w, p, request);
    if next != w {
      LoadReads(w, p, request);
      LatestIsStored(w.tables, request.assemblyId);
      LoadedFits(w, At(next, p));
      StepLocal(w, p, At(next, p));
    }
  }

  /** What a load leaves in its process. */
  lemma LoadReads(w: World, p: nat, request: AdvanceRequest)
    requires Load(w, p, request) != w
    ensures var l := At(Load(w, p, request), p);
      && Load(w, p, request) == Moved(w, p, l)
      && Latest(w.tables, request.assemblyId).Some?
      && (l.Loaded? || l.Holding? || l.Recovering?)
      && l.current == Latest(w.tables, request.assemblyId).value
      && (l.Loaded? ==> l.request == request && ValidAdvanceRequest(request))
  {
    hide ReadsBack, Latest;
  }

  lemma LoadedFits(w: World, l: Local)
    requires (l.Loaded? && ValidAdvanceRequest(l.request)) || l.Holding? || l.Recovering?
    requires Stored(w.tables, l.current)
    ensures LocalFits(w.tables, w.spent, l)
  {
  }

  lemma LocalAt(w: World, p: nat)
    requires LocalsFit(w)
    ensures LocalFits(w.tables, w.spent, At(w, p))
  {
  }

  /** Any step that moves one process without a commit or an effect keeps the invariant. */
  lemma QuietSafe(w: World, p: nat, l: Local)
    requires Safe(w) && !At(w, p).Idle?
    requires l.Idle? || (l.current == At(w, p).current && !l.Loaded? && !l.Started?
                         && (Owns(l) ==> Owns(At(w, p)))
                         && (l.Scoped? ==> At(w, p).Started?)
                         && (Owns(l) && !l.Scoped? ==> !At(w, p).Started? && !At(w, p).Scoped?)
                         && (l.Resolved? ==> ValidOutcome(l.answer)))
    ensures Safe(Moved(w, p, l))
  {
    hide TablesLawful, RetriesConsumed, SpentStarts, CallsCounted, LocalsFit, SpentStored, ValidOutcome, Stored;
    LocalAt(w, p);
    StepLocal(w, p, l);
  }

  lemma CallKeepsLocals(w: World, p: nat, ports: Authorities)
    requires LocalsFit(w) && At(w, p).Scoped?
    ensures LocalsFit(Call(w, p, ports))
  {
    hide ValidOutcome, Stored;
    forall q | q in w.locals && q != p
      ensures LocalFits(w.tables, Call(w, p, ports).spent, w.locals[q])
    {
      assert OwnersDiffer(w.locals[q], w.locals[p]);
    }
  }

  /** A call is counted at the slice its start marker names. */
  lemma CallKeepsCount(w: World, p: nat, ports: Authorities)
    requires Safe(w) && At(w, p).Scoped?
    ensures CallsCounted(Call(w, p, ports))
  {
    hide TablesLawful, RetriesConsumed, SpentStarts, LocalsFit, RowsSound, Lawful, SpentStored, ValidOutcome, Stored;
    var current := At(w, p).current;
    SafeTables(w);
    LocalIsStored(w, p);
    StoredIsRecord(w.tables, current);
    StoredIsLawful(w.tables, current);
    LocalAt(w, p);
    StartedOrdinal(current);
    forall a, k
      ensures CallCount(Call(w, p, ports), a, k)
           == SpentStarts(History(w.tables, a), a, w.spent + {TokenOf(current)}, k)
    {
      SpentOnce(History(w.tables, a), a, w.spent, TokenOf(current), k);
      assert CallCount(w, a, k) == SpentStarts(History(w.tables, a), a, w.spent, k);
    }
  }

  lemma StartedOrdinal(c: Checkpoint)
    requires Lawful(c) && c.started.Some?
    ensures c.started.value.ordinal == c.completed
  {
    hide ValidParts, Lexicographic, Tiled, ItemsLawful, ResumeLawful, OutcomesPrecede;
  }

  lemma CallSafe(w: World, p: nat, ports: Authorities)
    requires Safe(w)
    ensures Safe(Call(w, p, ports))
  {
    hide TablesLawful, RetriesConsumed, SpentStarts, CallsCounted, LocalsFit, Stored;
    if At(w, p).Scoped? {
      LocalIsStored(w, p);
      CallKeepsLocals(w, p, ports);
      CallKeepsCount(w, p, ports);
      CallKeepsSpent(w, p);
    }
  }

  lemma CallKeepsSpent(w: World, p: nat)
    requires SpentStored(w.tables, w.spent) && !At(w, p).Idle? && Stored(w.tables, At(w, p).current)
    ensures SpentStored(w.tables, w.spent + {TokenOf(At(w, p).current)})
  {
  }

  /** Recording a readback changes neither histories nor counts. */
  lemma ReadbackSafe(w: World, which: ReadbackTable, outcome: Outcome)
    requires Safe(w) && ValidOutcome(outcome) && outcome.disposition == TerminalReadback
    ensures Safe(w.(tables := AssemblyRepository.Recorded(w.tables, which, outcome)))
  {
    var t' := AssemblyRepository.Recorded(w.tables, which, outcome);
    hide Chronicle, Sound, RowsSound, ValidOutcome, Consumed, SpentStarts;
    RecordedKeepsSound(w.tables, which, outcome);
    RecordedKeepsLocals(w, which, outcome);
  }

  lemma RecordedKeepsLocals(w: World, which: ReadbackTable, outcome: Outcome)
    requires LocalsFit(w)
    ensures LocalsFit(w.(tables := AssemblyRepository.Recorded(w.tables, which, outcome)))
  {
    var w' := w.(tables := AssemblyRepository.Recorded(w.tables, which, outcome));
    hide ValidOutcome;
    forall p | p in w.locals
      ensures LocalFits(w'.tables, w.spent, w.locals[p])
    {
      assert LocalFits(w.tables, w.spent, w.locals[p]);
    }
  }

  lemma RecordEffectSafe(w: World, p: nat)
    requires Safe(w)
    ensures Safe(RecordEffect(w, p))
  {
    hide Safe, ValidOutcome, LocalFits, Recordable, EffectOutcome, StartScope, AssemblyRepository.Recorded, TableOf,
      KeyOf;
    if At(w, p).Called? {
      var Called(current, ports) := At(w, p);
      QuietSafe(w, p, Idle);
      QuietSafe(w, p, Received(current, ports));
      if StartScope(current).Success? {
        var outcome := EffectOutcome(StartScope(current).value, ports);
        if ValidOutcome(outcome) {
          EffectIsTerminal(StartScope(current).value, ports);
          ReadbackSafe(w, EffectReceipts, outcome);
          QuietSafe(w.(tables := AssemblyRepository.Recorded(w.tables, EffectReceipts, outcome)), p,
                    Received(current, ports));
        }
      }
    }
  }

  lemma EffectIsTerminal(scope: ReconciliationRequest, ports: Authorities)
    ensures EffectOutcome(scope, ports).disposition == TerminalReadback && EffectOutcome(scope, ports).scope == scope
  {
    hide PortField;
  }

  lemma TerminalIsTerminal(scope: ReconciliationRequest, done: Checkpoint)
    ensures TerminalOutcome(scope, done).disposition == TerminalReadback && TerminalOutcome(scope, done).scope == scope
  {
    hide StoredAuthority;
  }

  lemma RecordTerminalSafe(w: World, p: nat)
    requires Safe(w)
    ensures Safe(RecordTerminal(w, p))
  {
    hide Safe, ValidOutcome, LocalFits, Recordable, TerminalOutcome, StartScope, AssemblyRepository.Recorded,
      TableOf, KeyOf, Next;
    if At(w, p).Confirmed? {
      var Confirmed(current, ports) := At(w, p);
      QuietSafe(w, p, Idle);
      QuietSafe(w, p, Local.Recorded(current, ports));
      var next, scope := Next(current, ExecuteMove(ports)), StartScope(current);
      if next.Success? && scope.Success? {
        var outcome := TerminalOutcome(scope.value, next.value);
        if ValidOutcome(outcome) {
          TerminalIsTerminal(scope.value, next.value);
          ReadbackSafe(w, TerminalReadbacks, outcome);
          QuietSafe(w.(tables := AssemblyRepository.Recorded(w.tables, TerminalReadbacks, outcome)), p,
                    Local.Recorded(current, ports));
        }
      }
    }
  }

  lemma ScopeAndConfirmSafe(w: World, p: nat)
    requires Safe(w)
    ensures Safe(Scope(w, p)) && Safe(Confirm(w, p))
  {
    hide Safe, LocalFits, Next, StillLatest, Callable;
    if At(w, p).Started? {
      QuietSafe(w, p, Idle);
      QuietSafe(w, p, Scoped(At(w, p).current));
    }
    if At(w, p).Received? {
      QuietSafe(w, p, Idle);
      QuietSafe(w, p, Confirmed(At(w, p).current, At(w, p).ports));
    }
  }

  lemma AskAndReconcileSafe(w: World, p: nat, answer: Option<Outcome>)
    requires Safe(w)
    ensures Safe(Ask(w, p)) && Safe(AssemblyProtocol.Reconcile(w, p, answer))
  {
    hide Safe, LocalFits, Latest, ScopeOf, Readable, ValidOutcome;
    if At(w, p).Recovering? {
      QuietSafe(w, p, Idle);
      var latest := Latest(w.tables, At(w, p).current.assemblyId);
      if latest.Some? && ScopeOf(At(w, p).current, CheckpointRef(latest.value)).Success? {
        QuietSafe(w, p, Asking(At(w, p).current, ScopeOf(At(w, p).current, CheckpointRef(latest.value)).value));
      }
    }
    if At(w, p).Asking? {
      QuietSafe(w, p, Idle);
      if answer.Some? && ValidOutcome(answer.value) {
        QuietSafe(w, p, Resolved(At(w, p).current, answer.value));
      }
    }
  }

  // ---------------------------------------------------------------- every step, every run

  lemma MovesAreTyped(w: World, p: nat)
    requires Safe(w)
    ensures At(w, p).Loaded? ==> ValidAdvanceRequest(At(w, p).request)
    ensures At(w, p).Resolved? ==> ValidOutcome(At(w, p).answer)
  {
    hide TablesLawful, RetriesConsumed, SpentStored, CallsCounted, Stored, ValidOutcome;
    LocalAt(w, p);
  }

  /** Every event, by any process at any time, keeps the invariant. */
  lemma ApplySafe(w: World, e: Event)
    requires Safe(w)
    ensures Safe(Apply(w, e))
  {
    hide Safe, Submit, Load, Commit, Scope, Call, RecordEffect, Confirm, RecordTerminal, Ask,
      AssemblyProtocol.Reconcile, ValidOutcome, ValidAdvanceRequest;
    match e {
      case SubmitEvent(p, submission, admitted) => SubmitSafe(w, p, submission, admitted);
      case LoadEvent(p, request) => LoadSafe(w, p, request);
      case ClaimEvent(p) =>
        MovesAreTyped(w, p);
        if At(w, p).Loaded? { CommitSafe(w, p, ClaimMove(At(w, p).request)); }
      case StartEvent(p) =>
        if At(w, p).Holding? { CommitSafe(w, p, StartMove); }
      case ScopeEvent(p) => ScopeAndConfirmSafe(w, p);
      case CallEvent(p, ports) => CallSafe(w, p, ports);
      case RecordEffectEvent(p) => RecordEffectSafe(w, p);
      case ConfirmEvent(p) => ScopeAndConfirmSafe(w, p);
      case RecordTerminalEvent(p) => RecordTerminalSafe(w, p);
      case CompleteEvent(p) =>
        if At(w, p).Recorded? { CommitSafe(w, p, ExecuteMove(At(w, p).ports)); }
      case AskEvent(p) => AskAndReconcileSafe(w, p, None);
      case ReconcileEvent(p, answer) => AskAndReconcileSafe(w, p, answer);
      case ResolveEvent(p) =>
        MovesAreTyped(w, p);
        if At(w, p).Resolved? { CommitSafe(w, p, ReconcileMove(At(w, p).answer)); }
      case FinishEvent(p) =>
        if At(w, p).Holding? { CommitSafe(w, p, FinishMove); }
      case CrashEvent(p) => StepIdle(w, p);
    }
  }

  lemma GenesisSafe(production: bool)
    ensures Safe(Genesis(production))
  {
    hide Chronicle, ValidOutcome, RowSound;
  }

  lemma {:induction false} RunSafe(w: World, events: seq<Event>)
    requires Safe(w)
    ensures Safe(Run(w, events))
    decreases |events|
  {
    hide Safe, Apply;
    if events != [] {
      ApplySafe(w, events[0]);
      RunSafe(Apply(w, events[0]), events[1..]);
    }
  }

  ghost function Reached(production: bool, events: seq<Event>): World {
    Run(Genesis(production), events)
  }

  lemma ReachedSafe(production: bool, events: seq<Event>)
    ensures Safe(Reached(production, events))
  {
    GenesisSafe(production);
    RunSafe(Genesis(production), events);
  }

  // ---------------------------------------------------------------- results

  /** Every history any run writes is accepted when it is read back, and all its checkpoints keep
   *  the laws of lawful checkpoints; the tables keep every repository invariant. */
  lemma WrittenHistoriesReadBack(production: bool, events: seq<Event>)
    ensures Sound(Reached(production, events).tables)
    ensures forall a :: a in Reached(production, events).tables.heads ==>
      ReadsBack(Reached(production, events).tables, a) && Chronicle(a, History(Reached(production, events).tables, a))
  {
    var w := Reached(production, events);
    hide Safe, Reached, Lawful, AcceptedAt, Decoded, FirstAccepted, RowsSound;
    ReachedSafe(production, events);
    SafeTables(w);
    assert forall a :: a in w.tables.heads ==> Chronicle(a, History(w.tables, a));
  }

  /** Receipts consumed for one slice of one assembly. */
  function ReceiptsFor(retries: map<Uuid, RetryRow>, a: Uuid, ordinal: nat): set<Uuid> {
    set id | id in retries && retries[id].assemblyId == a && retries[id].authorization.startedSlice.ordinal == ordinal
  }

  /** The receipts that a checkpoint's outcomes name for one slice. */
  function ReceiptIds(outcomes: seq<Outcome>, ordinal: nat): set<Uuid> {
    set i | 0 <= i < |outcomes| && outcomes[i].disposition == RetryAuthorizedNoEffect && outcomes[i].retry.Some?
            && outcomes[i].scope.startedSlice.ordinal == ordinal :: outcomes[i].retry.value.receiptId
  }

  lemma LastReceipt(outcomes: seq<Outcome>, ordinal: nat)
    requires outcomes != [] && DistinctOutcomes(outcomes)
    requires var last := outcomes[|outcomes| - 1]; last.disposition == RetryAuthorizedNoEffect ==> last.retry.Some?
    ensures var n := |outcomes| - 1;
      var last, rest := outcomes[n], ReceiptIds(outcomes[..n], ordinal);
      if last.disposition == RetryAuthorizedNoEffect && last.scope.startedSlice.ordinal == ordinal then
        last.retry.value.receiptId !in rest && ReceiptIds(outcomes, ordinal) == rest + {last.retry.value.receiptId}
      else
        ReceiptIds(outcomes, ordinal) == rest
  {
    var n := |outcomes| - 1;
    assert forall i :: 0 <= i < n ==> !OutcomesClash(outcomes[i], outcomes[n]);
  }

  /** Distinct retry outcomes name distinct receipts. */
  lemma {:induction false} RetriesAreReceipts(outcomes: seq<Outcome>, ordinal: nat)
    requires DistinctOutcomes(outcomes)
    requires forall i :: 0 <= i < |outcomes| && outcomes[i].disposition == RetryAuthorizedNoEffect ==>
      outcomes[i].retry.Some?
    ensures Retries(outcomes, Some(ordinal)) == |ReceiptIds(outcomes, ordinal)|
  {
    if outcomes == [] {
      assert ReceiptIds([], ordinal) == {};
    } else {
      hide ReceiptIds, OutcomesClash;
      LastReceipt(outcomes, ordinal);
      RetriesAreReceipts(outcomes[..|outcomes| - 1], ordinal);
    }
  }

  lemma SubsetCardinality<T>(small: set<T>, large: set<T>)
    requires small <= large
    ensures |small| <= |large|
  {
    assert large == small + (large - small);
  }

  lemma RetriesWithinConsumed(t: Tables, c: Checkpoint, ordinal: nat)
    requires RetriesConsumed(t) && Stored(t, c) && ValidCheckpoint(c)
    ensures Retries(c.outcomes, Some(ordinal)) <= |ReceiptsFor(t.retries, c.assemblyId, ordinal)|
  {
    assert Consumed(t.retries, c.assemblyId, c.outcomes);
    ReceiptsKeepScope(c);
    hide ValidCheckpoint, RetriesConsumed, Stored;
    RetriesAreReceipts(c.outcomes, ordinal);
    SubsetCardinality(ReceiptIds(c.outcomes, ordinal), ReceiptsFor(t.retries, c.assemblyId, ordinal));
  }

  lemma ReceiptsKeepScope(c: Checkpoint)
    requires ValidCheckpoint(c)
    ensures DistinctOutcomes(c.outcomes)
    ensures forall i :: 0 <= i < |c.outcomes| && c.outcomes[i].disposition == RetryAuthorizedNoEffect ==>
      c.outcomes[i].retry.Some? && c.outcomes[i].retry.value.startedSlice == c.outcomes[i].scope.startedSlice
  {
    hide ValidSubmit, ValidItem, ValidReceipt, ValidActive, DistinctReceipts, StageSlices;
  }

  /** In any run, a slice's effect is called at most once more than no-effect receipts were consumed
   *  for it, and at most once more than the stored checkpoint accounts for. */
  lemma EffectCallsWithinReceipts(production: bool, events: seq<Event>, a: Uuid, ordinal: nat)
    ensures var w := Reached(production, events);
      && CallCount(w, a, ordinal) <= 1 + |ReceiptsFor(w.tables.retries, a, ordinal)|
      && (a in w.tables.heads ==>
            && Latest(w.tables, a).Some?
            && CallCount(w, a, ordinal) <= 1 + Retries(Latest(w.tables, a).value.outcomes, Some(ordinal)))
      && (a !in w.tables.heads ==> CallCount(w, a, ordinal) == 0)
  {
    hide Safe, Reached, RowsSound, Lawful, AcceptedAt, Decoded, FirstAccepted, RetriesConsumed, ReceiptsFor,
      SpentStarts, Starts, Retries, ValidCheckpoint, Latest, CleanStart;
    var w := Reached(production, events);
    ReachedSafe(production, events);
    SafeTables(w);
    SafeCounts(w, a, ordinal);
    var h := History(w.tables, a);
    if a in w.tables.heads {
      assert Chronicle(a, h);
      SpentWithinStarts(h, a, w.spent, ordinal);
      StartsAreRetriesPlusOne(a, h, ordinal);
      HeadIsLast(w.tables, a);
      RetriesWithinConsumed(w.tables, Latest(w.tables, a).value, ordinal);
    } else {
      assert SpentStarts([], a, w.spent, ordinal) == 0 by { NothingSpent(a, w.spent, ordinal); }
    }
  }

  /** Along a written history costs never fall, stay within the reservation, and suite, Hermes and
   *  capability identities stay what they were first set to. */
  lemma {:induction false} ItemsOnlyAdvance(a: Uuid, h: seq<Record>, i: nat, j: nat)
    requires Chronicle(a, h) && i <= j < |h|
    ensures ItemsAdvance(h[i].checkpoint, h[j].checkpoint)
    decreases j
  {
    hide AcceptedHistory, CleanStart, Lawful, ItemsAdvance;
    if i == j {
      LawfulStandsStill(h[i].checkpoint);
    } else {
      ItemsOnlyAdvance(a, h, i, j - 1);
      ItemsAdvanceOn(h[i].checkpoint, h[j - 1].checkpoint, h[j].checkpoint);
    }
  }

  lemma LawfulStandsStill(c: Checkpoint)
    requires Lawful(c)
    ensures ItemsAdvance(c, c)
  {
    hide ValidParts, ShapeAccepted, Lexicographic, Tiled, OutcomesPrecede, ResumeLawful, ItemLawful, Advances;
    forall i | 0 <= i < INPUTS
      ensures Advances(c.items[i], c.items[i])
    {
      LawfulItemStands(c, i);
    }
  }

  lemma ItemsAdvanceOn(x: Checkpoint, y: Checkpoint, z: Checkpoint)
    requires ItemsAdvance(x, y) && ItemsAdvance(y, z)
    ensures ItemsAdvance(x, z)
  {
  }

  /** In every run the receipts of an assembly tile its completed slices: each starts where the one before
   *  ended, ends at the end of its allowance, and with the active advance they add up to the progress. */
  lemma ReceiptsTileEveryRun(production: bool, events: seq<Event>, a: Uuid)
    requires a in Reached(production, events).tables.heads
    ensures Latest(Reached(production, events).tables, a).Some?
    ensures var c := Latest(Reached(production, events).tables, a).value;
      && Abutting(c.receipts)
      && (forall i :: 0 <= i < |c.receipts| ==> Exhausted(c.receipts[i]))
      && c.completed == Accounted(c)
  {
    hide Safe, Reached, RowsSound, AcceptedAt, Decoded, FirstAccepted, ValidCheckpoint, ShapeAccepted, Lexicographic,
      ItemsLawful, ResumeLawful, OutcomesPrecede, Latest, Accounted, Abutting, Exhausted, ItemsAdvance;
    var w := Reached(production, events);
    ReachedSafe(production, events);
    SafeTables(w);
    var h := History(w.tables, a);
    assert Chronicle(a, h);
    HeadIsLast(w.tables, a);
    ExecutedSlicesAddUp(a, h, |h| - 1);
  }

  lemma NothingSpent(a: Uuid, spent: set<(Uuid, nat)>, ordinal: nat)
    ensures SpentStarts([], a, spent, ordinal) == 0
  {
  }

  lemma SafeCounts(w: World, a: Uuid, ordinal: nat)
    requires Safe(w)
    ensures RowsSound(w.tables)
    ensures CallCount(w, a, ordinal) == SpentStarts(History(w.tables, a), a, w.spent, ordinal)
  {
    hide RowsSound, RetriesConsumed, Chronicle, LocalsFit, SpentStored, SpentStarts;
    assert CallsCounted(w);
  }

  /** The head's checkpoint is the last record of the history. */
  lemma HeadIsLast(t: Tables, a: Uuid)
    requires RowsSound(t) && a in t.heads
    ensures Latest(t, a).Some? && Stored(t, Latest(t, a).value) && Latest(t, a).value.assemblyId == a
    ensures History(t, a)[|History(t, a)| - 1] == RecordOf(Latest(t, a).value)
    ensures ValidCheckpoint(Latest(t, a).value)
  {
    hide ValidCheckpoint;
    assert RowSound(t, a, t.heads[a].latest);
  }

  /** A receipt is consumed exactly when a stored checkpoint records it, and only ever by one assembly
   *  under one authorization. */
  lemma ReceiptConsumedIffRecorded(production: bool, events: seq<Event>, id: Uuid)
    ensures var t := Reached(production, events).tables;
      id in t.retries <==> exists k :: k in t.rows && RecordsReceipt(t.rows[k].payload, id)
    ensures var t := Reached(production, events).tables;
      forall k, i :: k in t.rows && 0 <= i < |t.rows[k].payload.outcomes|
                     && t.rows[k].payload.outcomes[i].disposition == RetryAuthorizedNoEffect
                     && t.rows[k].payload.outcomes[i].retry.Some?
                     && t.rows[k].payload.outcomes[i].retry.value.receiptId == id ==>
        id in t.retries && t.retries[id].assemblyId == k.0
        && t.retries[id].authorization == t.rows[k].payload.outcomes[i].retry.value
  {
    hide Safe, Reached, RowsSound, ValidCheckpoint, Chronicle, KeysUnique, ReadbacksSound;
    ReachedSafe(production, events);
    var w := Reached(production, events);
    var t := w.tables;
    SafeTables(w);
    if id in t.retries {
      var row := t.retries[id];
      RowIsValid(t, (row.assemblyId, row.revision));
      BooksRecords(t.rows[(row.assemblyId, row.revision)].payload, row.authorization);
    }
    if k :| k in t.rows && RecordsReceipt(t.rows[k].payload, id) {
      assert Consumed(t.retries, k.0, t.rows[k].payload.outcomes);
    }
  }

  predicate RecordsReceipt(c: Checkpoint, id: Uuid) {
    exists i :: 0 <= i < |c.outcomes| && c.outcomes[i].disposition == RetryAuthorizedNoEffect
                && c.outcomes[i].retry.Some? && c.outcomes[i].retry.value.receiptId == id
  }

  lemma RowIsValid(t: Tables, k: (Uuid, nat))
    requires RowsSound(t) && k in t.rows
    ensures ValidCheckpoint(t.rows[k].payload)
  {
    hide ValidCheckpoint;
    assert RowSound(t, k.0, k.1);
  }

  lemma BooksRecords(c: Checkpoint, authorization: RetryAuthorization)
    requires ValidCheckpoint(c) && Books(c, authorization)
    ensures RecordsReceipt(c, authorization.receiptId)
  {
    hide ValidSubmit, ValidItem, ValidReceipt, ValidActive, DistinctReceipts, StageSlices, DistinctOutcomes;
    var i :| 0 <= i < |c.outcomes| && c.outcomes[i].retry == Some(authorization);
    assert ValidOutcome(c.outcomes[i]);
  }

  // ---------------------------------------------------------------- write-once tables

  ghost predicate MapGrows<K(!new), V(!new)>(m: map<K, V>, m': map<K, V>) {
    forall k :: k in m ==> k in m' && m'[k] == m[k]
  }

  /** Nothing stored is ever changed or removed; heads only move forward under their key. */
  ghost predicate Grows(t: Tables, t': Tables) {
    && MapGrows(t.rows, t'.rows)
    && MapGrows(t.retries, t'.retries)
    && MapGrows(t.effects, t'.effects)
    && MapGrows(t.terminal, t'.terminal)
    && forall a :: a in t.heads ==>
         && a in t'.heads
         && t'.heads[a].idempotencyKey == t.heads[a].idempotencyKey
         && t.heads[a].latest <= t'.heads[a].latest
  }

  lemma WriteGrows(t: Tables, c: Checkpoint, expected: nat, authorization: Option<RetryAuthorization>)
    requires Sound(t) && Writable(t, c, expected, authorization)
    ensures Grows(t, Written(t, c, authorization))
  {
    hide RowsSound, KeysUnique, RetriesSound, ReadbacksSound, KeyTaken;
    NextRowFree(t, c.assemblyId, expected);
  }

  lemma RecordGrows(t: Tables, which: ReadbackTable, scope: ReconciliationRequest, outcome: Outcome)
    requires Recordable(t, which, scope, outcome)
    ensures Grows(t, AssemblyRepository.Recorded(t, which, outcome))
  {
  }

  /** No event overwrites or removes a checkpoint, a consumed receipt or a readback. */
  lemma ApplyGrows(w: World, e: Event)
    requires Safe(w)
    ensures Grows(w.tables, Apply(w, e).tables)
  {
    hide Safe, Next, Admission, Writable, Written, Recordable, AssemblyRepository.Recorded, Latest, ReadsBack, Callable,
      EffectOutcome, TerminalOutcome, StartScope, ScopeOf, ValidOutcome, StillLatest, Readable, Grows, RowsSound, Sound;
    SafeTables(w);
    GrowsSelf(w.tables);
    forall c, expected, authorization | Writable(w.tables, c, expected, authorization)
      ensures Grows(w.tables, Written(w.tables, c, authorization))
    {
      WriteGrows(w.tables, c, expected, authorization);
    }
    forall which, scope, outcome | Recordable(w.tables, which, scope, outcome)
      ensures Grows(w.tables, AssemblyRepository.Recorded(w.tables, which, outcome))
    {
      RecordGrows(w.tables, which, scope, outcome);
    }
  }

  lemma GrowsSelf(t: Tables)
    ensures Grows(t, t)
  {
  }

  lemma {:induction false} RunGrows(w: World, events: seq<Event>)
    requires Safe(w)
    ensures Grows(w.tables, Run(w, events).tables)
    decreases |events|
  {
    hide Safe, Apply, Grows;
    if events == [] {
      GrowsSelf(w.tables);
    } else {
      ApplySafe(w, events[0]);
      ApplyGrows(w, events[0]);
      RunGrows(Apply(w, events[0]), events[1..]);
      GrowsOn(w.tables, Apply(w, events[0]).tables, Run(Apply(w, events[0]), events[1..]).tables);
    }
  }

  lemma GrowsOn(t: Tables, t': Tables, t'': Tables)
    requires Grows(t, t') && Grows(t', t'')
    ensures Grows(t, t'')
  {
  }

  /** Whatever is stored at some point of a run is stored, unchanged, at every later point. */
  lemma StoredForever(production: bool, before: seq<Event>, after: seq<Event>)
    ensures Grows(Reached(production, before).tables, Run(Reached(production, before), after).tables)
  {
    ReachedSafe(production, before);
    RunGrows(Reached(production, before), after);
  }
}
