/** The sole-writer repository of gateway/capability_assembly_repository.py: its tables, the
 *  transactions that change them, and what those transactions keep. */
module AssemblyRepository {
  import opened Wrappers
  import opened AssemblyContracts
  import opened AssemblyTransitions

  datatype Head = Head(idempotencyKey: nat, latest: nat)

  datatype Row = Row(digest: Digest, payload: Checkpoint)

  datatype RetryRow = RetryRow(authorization: RetryAuthorization, assemblyId: Uuid, revision: nat)

  datatype ReadbackKey = ReadbackKey(
    assemblyId: Uuid, operationId: Uuid, requestSha: Digest, ordinal: nat, startedSha: Digest)

  datatype Tables = Tables(
    heads: map<Uuid, Head>, rows: map<(Uuid, nat), Row>, retries: map<Uuid, RetryRow>,
    effects: map<ReadbackKey, Outcome>, terminal: map<ReadbackKey, Outcome>)

  // ---------------------------------------------------------------- invariants

  /** Revisions of every assembly are exactly 1..head, each row holding what its key says. */
  ghost predicate RowsSound(t: Tables) {
    && (forall a :: a in t.heads ==> t.heads[a].latest >= 1)
    && (forall a, r :: (a, r) in t.rows ==> a in t.heads && 1 <= r <= t.heads[a].latest)
    && (forall a, r: nat :: a in t.heads && 1 <= r <= t.heads[a].latest ==> (a, r) in t.rows)
    && (forall a, r {:trigger RowSound(t, a, r)} :: (a, r) in t.rows ==> RowSound(t, a, r))
  }

  ghost predicate RowSound(t: Tables, a: Uuid, r: nat)
    requires (a, r) in t.rows
  {
    var row := t.rows[(a, r)];
    && a in t.heads
    && row.digest == OfCheckpoint(row.payload)
    && row.payload.assemblyId == a
    && row.payload.revision == r
    && row.payload.request.idempotencyKey == t.heads[a].idempotencyKey
    && ValidCheckpoint(row.payload)
  }

  ghost predicate KeysUnique(t: Tables) {
    forall a, b :: a in t.heads && b in t.heads && t.heads[a].idempotencyKey == t.heads[b].idempotencyKey ==> a == b
  }

  predicate Books(c: Checkpoint, authorization: RetryAuthorization) {
    exists i :: 0 <= i < |c.outcomes| && c.outcomes[i].retry == Some(authorization)
  }

  /** A consumed receipt is bound to a committed checkpoint that records it, at most one per checkpoint. */
  ghost predicate RetriesSound(t: Tables) {
    && (forall id :: id in t.retries ==>
          var row := t.retries[id];
          && row.authorization.receiptId == id
          && (row.assemblyId, row.revision) in t.rows
          && Books(t.rows[(row.assemblyId, row.revision)].payload, row.authorization))
    && (forall id, other :: id in t.retries && other in t.retries && SameCheckpoint(t.retries[id], t.retries[other]) ==>
          id == other)
  }

  predicate SameCheckpoint(a: RetryRow, b: RetryRow) {
    a.assemblyId == b.assemblyId && a.revision == b.revision
  }

  function KeyOf(scope: ReconciliationRequest): ReadbackKey {
    ReadbackKey(scope.assemblyId, scope.operationId, scope.requestSha, scope.startedSlice.ordinal,
                scope.startedRef.sha256)
  }

  /** A readback table only holds valid terminal outcomes, each under the key of its own scope. */
  ghost predicate ReadbacksSound(table: map<ReadbackKey, Outcome>) {
    forall k :: k in table ==>
      KeyOf(table[k].scope) == k && table[k].disposition == TerminalReadback && ValidOutcome(table[k])
  }

  ghost predicate Sound(t: Tables) {
    && RowsSound(t) && KeysUnique(t) && RetriesSound(t)
    && ReadbacksSound(t.effects) && ReadbacksSound(t.terminal)
  }

  // ---------------------------------------------------------------- reading

  /** The records of revisions 1..n, in order. */
  ghost function RecordsUpTo(rows: map<(Uuid, nat), Row>, a: Uuid, n: nat): (h: seq<Record>)
    requires forall r: nat :: 1 <= r <= n ==> (a, r) in rows
    ensures |h| == n
    ensures forall i :: 0 <= i < n ==> h[i] == RecordOf(rows[(a, i + 1)].payload)
  {
    seq(n, i requires 0 <= i < n => RecordOf(rows[(a, i + 1)].payload))
  }

  /** `SELECT ... ORDER BY revision`. */
  ghost function History(t: Tables, a: Uuid): (h: seq<Record>)
    requires RowsSound(t)
    ensures a !in t.heads <==> h == []
    ensures a in t.heads ==> |h| == t.heads[a].latest
    ensures forall i :: 0 <= i < |h| ==> h[i] == RecordOf(t.rows[(a, i + 1)].payload)
  {
    if a !in t.heads then [] else RecordsUpTo(t.rows, a, t.heads[a].latest)
  }

  // ---------------------------------------------------------------- compare and swap

  predicate KeyTaken(t: Tables, key: nat) {
    exists a :: a in t.heads && t.heads[a].idempotencyKey == key
  }

  predicate RetryTaken(t: Tables, receiptId: Uuid, a: Uuid, revision: nat) {
    receiptId in t.retries
    || exists id :: id in t.retries && t.retries[id].assemblyId == a && t.retries[id].revision == revision
  }

  /** The write is the next revision of its own assembly, or the first under an unused key, and its
   *  retry receipt was never consumed. */
  predicate Writable(t: Tables, c: Checkpoint, expected: nat, authorization: Option<RetryAuthorization>) {
    && c.revision == expected + 1
    && (if c.assemblyId in t.heads then
          t.heads[c.assemblyId] == Head(c.request.idempotencyKey, expected)
        else
          expected == 0 && !KeyTaken(t, c.request.idempotencyKey))
    && (authorization.Some? ==> !RetryTaken(t, authorization.value.receiptId, c.assemblyId, c.revision))
  }

  function Written(t: Tables, c: Checkpoint, authorization: Option<RetryAuthorization>): Tables {
    t.(heads := t.heads[c.assemblyId := Head(c.request.idempotencyKey, c.revision)],
       rows := t.rows[(c.assemblyId, c.revision) := Row(OfCheckpoint(c), c)],
       retries := if authorization.None? then t.retries
                  else t.retries[authorization.value.receiptId :=
                                   RetryRow(authorization.value, c.assemblyId, c.revision)])
  }

  lemma WrittenKeepsRows(t: Tables, c: Checkpoint, expected: nat, authorization: Option<RetryAuthorization>)
    requires RowsSound(t) && KeysUnique(t) && ValidCheckpoint(c) && Writable(t, c, expected, authorization)
    ensures RowsSound(Written(t, c, authorization)) && KeysUnique(Written(t, c, authorization))
  {
    hide ValidCheckpoint;
    var t' := Written(t, c, authorization);
    forall a, r | (a, r) in t'.rows
      ensures RowSound(t', a, r)
    {
      if (a, r) in t.rows {
        assert RowSound(t, a, r);
      }
    }
  }

  lemma WrittenKeepsRetries(t: Tables, c: Checkpoint, expected: nat, authorization: Option<RetryAuthorization>)
    requires RowsSound(t) && RetriesSound(t) && Writable(t, c, expected, authorization)
    requires authorization.Some? ==> Books(c, authorization.value)
    ensures RetriesSound(Written(t, c, authorization))
  {
    hide RowSound, Books;
  }

  /** A committed write keeps every repository invariant. */
  lemma WrittenKeepsSound(t: Tables, c: Checkpoint, expected: nat, authorization: Option<RetryAuthorization>)
    requires Sound(t) && ValidCheckpoint(c) && Writable(t, c, expected, authorization)
    requires authorization.Some? ==> Books(c, authorization.value)
    ensures Sound(Written(t, c, authorization))
  {
    hide RowsSound, KeysUnique, RetriesSound, ValidCheckpoint, Books, Writable;
    WrittenKeepsRows(t, c, expected, authorization);
    WrittenKeepsRetries(t, c, expected, authorization);
  }

  /** A committed write appends one record to its own history and touches no other. */
  lemma WrittenAppends(t: Tables, c: Checkpoint, expected: nat, authorization: Option<RetryAuthorization>, a: Uuid)
    requires RowsSound(t) && KeysUnique(t) && ValidCheckpoint(c) && Writable(t, c, expected, authorization)
    ensures RowsSound(Written(t, c, authorization))
    ensures History(Written(t, c, authorization), a)
         == History(t, a) + if a == c.assemblyId then [RecordOf(c)] else []
    ensures a == c.assemblyId ==> |History(t, a)| == expected
  {
    hide ValidCheckpoint, History, KeyTaken, RetryTaken, RowsSound, KeysUnique, RowSound;
    WrittenKeepsRows(t, c, expected, authorization);
    HistoryRows(t, a);
  }

  /** Every record of a history is backed by a row. */
  lemma HistoryRows(t: Tables, a: Uuid)
    requires RowsSound(t)
    ensures forall r :: 1 <= r <= |History(t, a)| ==> (a, r) in t.rows
  {
    hide RowSound;
  }

  lemma NextRowFree(t: Tables, a: Uuid, expected: nat)
    requires RowsSound(t) && (if a in t.heads then t.heads[a].latest == expected else expected == 0)
    ensures (a, expected + 1) !in t.rows
  {
    hide RowSound;
  }

  /** Some record of the assembly carries the key. */
  ghost predicate CarriesKey(t: Tables, a: Uuid, key: nat)
    requires RowsSound(t)
  {
    exists i :: 0 <= i < |History(t, a)| && History(t, a)[i].checkpoint.request.idempotencyKey == key
  }

  /** The assembly's records are exactly the revisions before this one; if there are any, they carry its key, and
   *  no other assembly's records do; and the receipt was never consumed. */
  ghost predicate ContinuesHistory(t: Tables, c: Checkpoint, expected: nat, authorization: Option<RetryAuthorization>)
    requires RowsSound(t)
  {
    && c.revision == expected + 1 && |History(t, c.assemblyId)| == expected
    && (expected > 0 ==> CarriesKey(t, c.assemblyId, c.request.idempotencyKey))
    && (forall a :: CarriesKey(t, a, c.request.idempotencyKey) ==> a == c.assemblyId)
    && (authorization.Some? ==> authorization.value.receiptId !in t.retries)
  }

  /** A write commits exactly when the checkpoint continues what is stored. */
  lemma WritableIff(t: Tables, c: Checkpoint, expected: nat, authorization: Option<RetryAuthorization>)
    requires Sound(t)
    ensures Writable(t, c, expected, authorization) <==> ContinuesHistory(t, c, expected, authorization)
  {
    hide ReadbacksSound, Books, ValidCheckpoint, History, CarriesKey, RowSound;
    forall a
      ensures CarriesKey(t, a, c.request.idempotencyKey)
        <==> a in t.heads && t.heads[a].idempotencyKey == c.request.idempotencyKey
    {
      HeadHasKey(t, a, c.request.idempotencyKey);
    }
    if |History(t, c.assemblyId)| == expected {
      NextRowFree(t, c.assemblyId, expected);
    }
  }

  /** All records of an assembly carry the key of its head, and there is at least one. */
  lemma HeadHasKey(t: Tables, a: Uuid, key: nat)
    requires RowsSound(t)
    ensures CarriesKey(t, a, key) <==> a in t.heads && t.heads[a].idempotencyKey == key
  {
    hide ValidCheckpoint;
    forall i | 0 <= i < |History(t, a)|
      ensures History(t, a)[i].checkpoint.request.idempotencyKey == t.heads[a].idempotencyKey
    {
      assert RowSound(t, a, i + 1);
    }
    if a in t.heads {
      assert |History(t, a)| >= 1;
      assert History(t, a)[0].checkpoint.request.idempotencyKey == t.heads[a].idempotencyKey;
    }
  }

  // ---------------------------------------------------------------- readback tables

  datatype ReadbackTable = EffectReceipts | TerminalReadbacks

  function TableOf(t: Tables, which: ReadbackTable): map<ReadbackKey, Outcome> {
    match which
    case EffectReceipts => t.effects
    case TerminalReadbacks => t.terminal
  }

  predicate Bound(scope: ReconciliationRequest, outcome: Outcome) {
    outcome.disposition == TerminalReadback && outcome.scope == scope
  }

  /** A readback may be written once under its key, and repeated only verbatim. */
  predicate Recordable(t: Tables, which: ReadbackTable, scope: ReconciliationRequest, outcome: Outcome) {
    Bound(scope, outcome)
    && (KeyOf(scope) in TableOf(t, which) ==> TableOf(t, which)[KeyOf(scope)] == outcome)
  }

  function Recorded(t: Tables, which: ReadbackTable, outcome: Outcome): Tables {
    match which
    case EffectReceipts => t.(effects := t.effects[KeyOf(outcome.scope) := outcome])
    case TerminalReadbacks => t.(terminal := t.terminal[KeyOf(outcome.scope) := outcome])
  }

  lemma RecordedKeepsSound(t: Tables, which: ReadbackTable, outcome: Outcome)
    requires Sound(t) && ValidOutcome(outcome) && outcome.disposition == TerminalReadback
    ensures Sound(Recorded(t, which, outcome))
    ensures forall a :: History(Recorded(t, which, outcome), a) == History(t, a)
  {
    hide ValidOutcome, ValidCheckpoint, Books, KeysUnique, RetriesSound;
    var t' := Recorded(t, which, outcome);
    assert forall a, r | (a, r) in t.rows :: RowSound(t, a, r) == RowSound(t', a, r);
    RecordedKeepsKeys(t, which, outcome);
  }

  lemma RecordedKeepsKeys(t: Tables, which: ReadbackTable, outcome: Outcome)
    requires KeysUnique(t) && RetriesSound(t)
    ensures KeysUnique(Recorded(t, which, outcome)) && RetriesSound(Recorded(t, which, outcome))
  {
  }

  /** What `_readback` returns: nothing, the stored outcome, or a conflict when it is not about this scope. */
  function ReadbackOf(t: Tables, which: ReadbackTable, scope: ReconciliationRequest): Result<Option<Outcome>> {
    var table := TableOf(t, which);
    if KeyOf(scope) !in table then Success(None)
    else if !Bound(scope, table[KeyOf(scope)]) then Failure(Conflict)
    else Success(Some(table[KeyOf(scope)]))
  }

  /** One effect of one start: what a stored readback is filed under. */
  ghost predicate SameStart(a: ReconciliationRequest, b: ReconciliationRequest) {
    && a.assemblyId == b.assemblyId && a.operationId == b.operationId && a.requestSha == b.requestSha
    && a.startedSlice.ordinal == b.startedSlice.ordinal && a.startedRef.sha256 == b.startedRef.sha256
  }

  ghost predicate Holds(t: Tables, which: ReadbackTable, outcome: Outcome) {
    var table := if which == EffectReceipts then t.effects else t.terminal;
    exists k :: k in table && table[k] == outcome
  }

  /** A readback is accepted exactly as a terminal outcome of its very scope that contradicts nothing held for the
   *  same start, and exactly what is held for a scope is read back for it. */
  lemma ReadbackIff(t: Tables, which: ReadbackTable, scope: ReconciliationRequest, outcome: Outcome)
    requires Sound(t)
    ensures Recordable(t, which, scope, outcome)
      <==> && outcome.disposition == TerminalReadback && outcome.scope == scope
           && forall other :: Holds(t, which, other) && SameStart(other.scope, scope) ==> other == outcome
    ensures ReadbackOf(t, which, scope) == Success(Some(outcome))
      <==> Holds(t, which, outcome) && outcome.scope == scope
    ensures ReadbackOf(t, which, scope) == Success(None)
      <==> forall other :: Holds(t, which, other) ==> !SameStart(other.scope, scope)
    ensures Recordable(t, which, scope, outcome) ==>
      (forall other, x ::
         Holds(Recorded(t, which, outcome), x, other) <==> Holds(t, x, other) || (x == which && other == outcome))
  {
    hide RowsSound, KeysUnique, RetriesSound, ValidOutcome;
    var table := TableOf(t, which);
    assert forall k :: k in table ==> KeyOf(table[k].scope) == k;
    if KeyOf(scope) in table {
      assert Holds(t, which, table[KeyOf(scope)]);
    }
    if Recordable(t, which, scope, outcome) {
      RecordedHolds(t, which, scope, outcome);
    }
  }

  lemma RecordedHolds(t: Tables, which: ReadbackTable, scope: ReconciliationRequest, outcome: Outcome)
    requires Recordable(t, which, scope, outcome)
    ensures (forall other, x ::
               Holds(Recorded(t, which, outcome), x, other) <==> Holds(t, x, other) || (x == which && other == outcome))
  {
    var t', key := Recorded(t, which, outcome), KeyOf(outcome.scope);
    forall other, x
      ensures Holds(t', x, other) <==> Holds(t, x, other) || (x == which && other == outcome)
    {
      var before, after := if x == EffectReceipts then t.effects else t.terminal,
                           if x == EffectReceipts then t'.effects else t'.terminal;
      assert x == which ==> key in after && after[key] == outcome;
      if k :| k in before && before[k] == other {
        assert k in after && after[k] == other;
      }
      if k :| k in after && after[k] == other && !(x == which && k == key) {
        assert k in before && before[k] == other;
      }
    }
  }

  /** `GatewayCapabilityReconciliation.reconcile`: the effect receipt, or else the terminal readback. */
  function ReconcileAnswer(t: Tables, scope: ReconciliationRequest): Result<Option<Outcome>> {
    var effect :- ReadbackOf(t, EffectReceipts, scope);
    if effect.Some? then Success(effect) else ReadbackOf(t, TerminalReadbacks, scope)
  }

  /** Reconciliation answers with the effect receipt of the scope; only without one does it answer with the
   *  terminal readback, and without both with nothing. */
  lemma ReconcileIff(t: Tables, scope: ReconciliationRequest, outcome: Outcome)
    requires Sound(t)
    ensures Holds(t, EffectReceipts, outcome) && outcome.scope == scope ==>
      ReconcileAnswer(t, scope) == Success(Some(outcome))
    ensures (forall other :: Holds(t, EffectReceipts, other) ==> !SameStart(other.scope, scope)) ==>
      (ReconcileAnswer(t, scope) == Success(Some(outcome))
       <==> Holds(t, TerminalReadbacks, outcome) && outcome.scope == scope)
    ensures (forall other, which :: Holds(t, which, other) ==> !SameStart(other.scope, scope)) ==>
      ReconcileAnswer(t, scope) == Success(None)
  {
    hide Sound, ReadbackOf, Holds, SameStart;
    ReadbackIff(t, EffectReceipts, scope, outcome);
    ReadbackIff(t, TerminalReadbacks, scope, outcome);
  }

  // ---------------------------------------------------------------- the repository object

  class Repository {
    var heads: map<Uuid, Head>
    var rows: map<(Uuid, nat), Row>
    var retries: map<Uuid, RetryRow>
    var effects: map<ReadbackKey, Outcome>
    var terminal: map<ReadbackKey, Outcome>

    ghost function State(): Tables
      reads this
    {
      Tables(heads, rows, retries, effects, terminal)
    }

    ghost predicate Valid()
      reads this
    {
      Sound(State())
    }

    constructor ()
      ensures Valid() && State() == Tables(map[], map[], map[], map[], map[])
    {
      heads, rows, retries, effects, terminal := map[], map[], map[], map[], map[];
    }

    method ReadHistory(a: Uuid) returns (history: seq<Record>)
      requires Valid()
      ensures history == History(State(), a)
    {
      hide RowsSound, KeysUnique, RetriesSound, ReadbacksSound, RecordOf, ValidCheckpoint, RowSound, History;
      HistoryRows(State(), a);
      if a !in heads {
        return [];
      }
      var count, table := heads[a].latest, rows;
      history := seq(count, i requires 0 <= i < count && (a, i + 1) in table => RecordOf(table[(a, i + 1)].payload));
    }

    method FindByIdempotencyKey(key: nat) returns (found: Option<Record>)
      requires Valid()
      ensures found.Some? <==> KeyTaken(State(), key)
      ensures found.Some? ==>
        var c := found.value.checkpoint;
        && found.value == RecordOf(c)
        && c.request.idempotencyKey == key
        && c.assemblyId in heads
        && History(State(), c.assemblyId)[heads[c.assemblyId].latest - 1] == found.value
    {
      if exists a :: a in heads && heads[a].idempotencyKey == key {
        var a :| a in heads && heads[a].idempotencyKey == key;
        assert RowSound(State(), a, heads[a].latest);
        found := Some(RecordOf(rows[(a, heads[a].latest)].payload));
      } else {
        found := None;
      }
    }

    /** One transaction: lock the head, insert the checkpoint and the receipt, move the head; any
     *  violated key rolls everything back. */
    method WriteCheckpoint(c: Checkpoint, expected: nat, authorization: Option<RetryAuthorization>)
      returns (result: Result<Record>)
      requires Valid() && ValidCheckpoint(c)
      requires authorization.Some? ==> Books(c, authorization.value)
      modifies this
      ensures Valid()
      ensures retries == if result.Success? && authorization.Some?
                         then old(retries)[authorization.value.receiptId :=
                                             RetryRow(authorization.value, c.assemblyId, c.revision)]
                         else old(retries)
      ensures effects == old(effects) && terminal == old(terminal)
      ensures result == if old(Writable(State(), c, expected, authorization)) then Success(RecordOf(c))
                        else Failure(Conflict)
      ensures State() == if result.Success? then Written(old(State()), c, authorization) else old(State())
    {
      hide ValidCheckpoint, Books, RowsSound, KeysUnique, RetriesSound, ReadbacksSound;
      if c.revision != expected + 1 {
        return Failure(Conflict);
      }
      ghost var before := State();
      var heads0, rows0 := heads, rows;
      var a := c.assemblyId;
      if a !in heads {
        if expected != 0 || (exists b :: b in heads && heads[b].idempotencyKey == c.request.idempotencyKey) {
          return Failure(Conflict);
        }
        heads := heads[a := Head(c.request.idempotencyKey, 0)];
      } else if heads[a].latest != expected || heads[a].idempotencyKey != c.request.idempotencyKey {
        return Failure(Conflict);
      }
      NextRowFree(before, a, expected);
      assert (a, c.revision) !in rows;
      rows := rows[(a, c.revision) := Row(OfCheckpoint(c), c)];
      if authorization.Some? {
        var receiptId := authorization.value.receiptId;
        if receiptId in retries
           || (exists id :: id in retries && retries[id].assemblyId == a && retries[id].revision == c.revision) {
          heads, rows := heads0, rows0;
          return Failure(Conflict);
        }
        retries := retries[receiptId := RetryRow(authorization.value, a, c.revision)];
      }
      assert heads[a].latest == expected;
      heads := heads[a := heads[a].(latest := c.revision)];
      assert State() == Written(before, c, authorization);
      WrittenKeepsSound(before, c, expected, authorization);
      return Success(RecordOf(c));
    }

    method Append(c: Checkpoint, expected: nat) returns (result: Result<Record>)
      requires Valid() && ValidCheckpoint(c)
      modifies this
      ensures Valid()
      ensures result == if old(Writable(State(), c, expected, None)) then Success(RecordOf(c)) else Failure(Conflict)
      ensures State() == if result.Success? then Written(old(State()), c, None) else old(State())
    {
      result := WriteCheckpoint(c, expected, None);
    }

    method ConsumeRetryAuthorizationAndAppend(c: Checkpoint, authorization: RetryAuthorization, expected: nat)
      returns (result: Result<Record>)
      requires Valid() && ValidCheckpoint(c)
      modifies this
      ensures Valid()
      ensures result == if Books(c, authorization) && old(Writable(State(), c, expected, Some(authorization)))
                        then Success(RecordOf(c)) else Failure(Conflict)
      ensures State() == if result.Success? then Written(old(State()), c, Some(authorization)) else old(State())
    {
      if !(exists i :: 0 <= i < |c.outcomes| && c.outcomes[i].retry == Some(authorization)) {
        return Failure(Conflict);
      }
      result := WriteCheckpoint(c, expected, Some(authorization));
    }

    method RecordReadback(which: ReadbackTable, scope: ReconciliationRequest, outcome: Outcome) returns (done: Check)
      requires Valid() && ValidOutcome(outcome)
      modifies this
      ensures Valid()
      ensures done == if old(Recordable(State(), which, scope, outcome)) then Pass else Refuse(Conflict)
      ensures State() == if done.Pass? then Recorded(old(State()), which, outcome) else old(State())
    {
      hide ValidOutcome, Sound;
      ghost var before := State();
      if !Bound(scope, outcome) {
        return Refuse(Conflict);
      }
      var key := KeyOf(scope);
      var table := match which case EffectReceipts => effects case TerminalReadbacks => terminal;
      if key in table {
        assert table == table[key := table[key]];
        return if table[key] == outcome then Pass else Refuse(Conflict);
      }
      match which {
        case EffectReceipts => effects := effects[key := outcome];
        case TerminalReadbacks => terminal := terminal[key := outcome];
      }
      RecordedKeepsSound(before, which, outcome);
      return Pass;
    }

    method Readback(which: ReadbackTable, scope: ReconciliationRequest) returns (result: Result<Option<Outcome>>)
      ensures result == ReadbackOf(State(), which, scope)
    {
      var table := match which case EffectReceipts => effects case TerminalReadbacks => terminal;
      var key := KeyOf(scope);
      if key !in table {
        return Success(None);
      }
      if !Bound(scope, table[key]) {
        return Failure(Conflict);
      }
      return Success(Some(table[key]));
    }

    method Reconcile(scope: ReconciliationRequest) returns (result: Result<Option<Outcome>>)
      ensures result == ReconcileAnswer(State(), scope)
    {
      result := Readback(EffectReceipts, scope);
      if result == Success(None) {
        result := Readback(TerminalReadbacks, scope);
      }
    }
  }
}
