/** The Renewal runtime authority: a bounded walk over a chain of derived command identities, each link
 *  replacing a grant that was revoked or has expired. Grants may also be filed from elsewhere. */
module RenewalChain {
  import opened Wrappers

  /** Microseconds. */
  type Time = int

  const GRANT_DURATION: int := 15 * 60_000_000
  const CHAIN_LIMIT: nat := 16

  datatype Scope = Scope(jobId: nat, invocationId: nat, caseSha256: nat, toolSha256: nat)

  /** Name-based identities: the first command of a scope, and the successor of a command and its grant. */
  datatype CommandId = Root(scope: Scope) | Renewed(prior: CommandId, grantId: GrantId)

  /** A derived grant id is a digest of its command; a grant filed from elsewhere may carry any id. */
  datatype GrantId = GrantOf(commandId: CommandId) | Named(name: nat)

  datatype Grant = Grant(grantId: GrantId, commandId: CommandId, issuedAt: Time, expiresAt: Time)

  datatype Operation = Operation(operationId: CommandId, grant: Option<Grant>, revoked: bool)

  type Operations = map<CommandId, Operation>

  datatype Answer = Authorized(operation: Operation) | GrantMissing | ChainExhausted | Interrupted

  /** Where the writes of a call are cut short. */
  datatype Failure = NoFailure | BeforeCommand | BetweenWrites

  predicate Live(o: Operation, now: Time) {
    o.grant.Some? && !o.revoked && o.grant.value.expiresAt > now
  }

  function NewGrant(id: CommandId, now: Time): Grant {
    Grant(GrantOf(id), id, now, now + GRANT_DURATION)
  }

  /** Some stored grant carries the id. */
  predicate Taken(operations: Operations, grantId: GrantId) {
    exists id :: id in operations && operations[id].grant.Some? && operations[id].grant.value.grantId == grantId
  }

  // ---------------------------------------------------------------- the walk

  datatype Place = LiveAt(id: CommandId) | FreeAt(id: CommandId) | BareAt(id: CommandId) | Beyond

  /** Follow the chain from `id` for at most `steps` links. */
  function Walk(operations: Operations, id: CommandId, now: Time, steps: nat): (place: Place)
    ensures place.LiveAt? ==> place.id in operations && Live(operations[place.id], now)
    ensures place.FreeAt? ==> place.id !in operations
    decreases steps
  {
    if steps == 0 then Beyond
    else if id !in operations then FreeAt(id)
    else if operations[id].grant.None? then BareAt(id)
    else if Live(operations[id], now) then LiveAt(id)
    else Walk(operations, Renewed(id, operations[id].grant.value.grantId), now, steps - 1)
  }

  /** What one call leaves in the store, and what it answers. A grant whose id is taken is not filed, and
   *  the call fails between its two writes. */
  function Authorize(operations: Operations, scope: Scope, now: Time, failure: Failure): (Operations, Answer) {
    match Walk(operations, Root(scope), now, CHAIN_LIMIT)
    case LiveAt(id) => (operations, Authorized(operations[id]))
    case BareAt(_) => (operations, GrantMissing)
    case Beyond => (operations, ChainExhausted)
    case FreeAt(id) =>
      if failure == BeforeCommand then (operations, Interrupted)
      else if failure == BetweenWrites || Taken(operations, GrantOf(id)) then
        (operations[id := Operation(id, None, false)], Interrupted)
      else
        var granted := Operation(id, Some(NewGrant(id, now)), false);
        (operations[id := granted], Authorized(granted))
  }

  // ---------------------------------------------------------------- the object

  class Authority {
    var operations: Operations

    constructor ()
      ensures operations == map[]
    {
      operations := map[];
    }

    /** Return the live grant of the chain, or extend the chain by one command and its grant. */
    method AuthorizationFor(scope: Scope, now: Time, failure: Failure) returns (answer: Answer)
      modifies this
      ensures answer.Authorized? ==>
        && answer.operation.grant.Some? && !answer.operation.revoked && answer.operation.grant.value.expiresAt > now
        && exists id :: id in operations && operations[id] == answer.operation
      ensures answer.Authorized? && operations != old(operations) ==>
        var id := answer.operation.operationId;
        && id !in old(operations) && operations == old(operations)[id := answer.operation]
        && answer.operation.grant == Some(Grant(GrantOf(id), id, now, now + 15 * 60 * 1_000_000))
      ensures !answer.Authorized? && operations != old(operations) ==>
        && answer == Interrupted
        && exists id :: id !in old(operations) && operations == old(operations)[id := Operation(id, None, false)]
      ensures (operations, answer) == Authorize(old(operations), scope, now, failure)
    {
      var commandId := Root(scope);
      var found := false;
      var steps := 0;
      while steps < CHAIN_LIMIT && !found
        invariant 0 <= steps <= CHAIN_LIMIT && operations == old(operations)
        invariant found ==> commandId !in operations
        invariant Walk(operations, Root(scope), now, CHAIN_LIMIT)
               == if found then FreeAt(commandId) else Walk(operations, commandId, now, CHAIN_LIMIT - steps)
        decreases CHAIN_LIMIT - steps, !found
      {
        if commandId !in operations {
          found := true;
        } else {
          var operation := operations[commandId];
          if operation.grant.None? {
            return GrantMissing;
          }
          if Live(operation, now) {
            return Authorized(operation);
          }
          commandId := Renewed(commandId, operation.grant.value.grantId);
          steps := steps + 1;
        }
      }
      if !found {
        return ChainExhausted;
      }
      if failure == BeforeCommand {
        return Interrupted;
      }
      var taken := Taken(operations, GrantOf(commandId));
      operations := operations[commandId := Operation(commandId, None, false)];
      if failure == BetweenWrites || taken {
        return Interrupted;
      }
      var granted := Operation(commandId, Some(NewGrant(commandId, now)), false);
      operations := operations[commandId := granted];
      assert operations == old(operations)[commandId := granted];
      assert commandId in operations && operations[commandId] == granted;
      return Authorized(granted);
    }
  }

  // ---------------------------------------------------------------- the chain of a scope

  function ScopeOf(id: CommandId): Scope {
    match id
    case Root(scope) => scope
    case Renewed(prior, _) => ScopeOf(prior)
  }

  function Depth(id: CommandId): nat {
    match id
    case Root(_) => 0
    case Renewed(prior, _) => 1 + Depth(prior)
  }

  /** Every operation is stored under its own command and with its own grant. */
  ghost predicate WellFiled(operations: Operations) {
    forall id :: id in operations ==>
      && operations[id].operationId == id
      && (operations[id].grant.None? ==> !operations[id].revoked)
      && (operations[id].grant.Some? ==> operations[id].grant.value.commandId == id)
  }

  /** The command that replaces a stored command and its grant. */
  ghost predicate Replaces(operations: Operations, next: CommandId, id: CommandId) {
    id in operations && operations[id].grant.Some? && next == Renewed(id, operations[id].grant.value.grantId)
  }

  /** Each link but the first replaces the link before it. */
  ghost predicate Linked(operations: Operations, scope: Scope, chain: seq<CommandId>) {
    && (chain != [] ==> chain[0] == Root(scope))
    && (forall i :: 0 <= i < |chain| ==> chain[i] in operations)
    && (forall i, j :: 0 <= i < j < |chain| && j == i + 1 ==> Replaces(operations, chain[j], chain[i]))
  }

  /** The chain holds every stored command of its scope, and is dead but for its last link. */
  ghost predicate Chained(operations: Operations, scope: Scope, chain: seq<CommandId>, now: Time) {
    && |chain| <= CHAIN_LIMIT
    && Linked(operations, scope, chain)
    && (forall i :: 0 <= i < |chain| - 1 ==> !Live(operations[chain[i]], now))
    && (forall id :: id in operations && ScopeOf(id) == scope ==> id in chain)
  }

  /** Derived identities tell scope and position apart. */
  lemma {:induction false} LinkIdentity(operations: Operations, scope: Scope, chain: seq<CommandId>, i: nat)
    requires Linked(operations, scope, chain) && i < |chain|
    ensures ScopeOf(chain[i]) == scope && Depth(chain[i]) == i
  {
    if i > 0 {
      var before := i - 1;
      LinkIdentity(operations, scope, chain, before);
      assert Replaces(operations, chain[i], chain[before]);
    }
  }

  /** Where the walk over a chain ends. */
  ghost function EndOf(operations: Operations, scope: Scope, chain: seq<CommandId>, now: Time): Place {
    if chain == [] || chain[|chain| - 1] !in operations then FreeAt(Root(scope))
    else
      var last := chain[|chain| - 1];
      if operations[last].grant.None? then BareAt(last)
      else if Live(operations[last], now) then LiveAt(last)
      else if |chain| == CHAIN_LIMIT then Beyond
      else FreeAt(Renewed(last, operations[last].grant.value.grantId))
  }

  lemma NextIsFree(operations: Operations, scope: Scope, chain: seq<CommandId>, now: Time, id: CommandId)
    requires Chained(operations, scope, chain, now)
    requires ScopeOf(id) == scope && Depth(id) == |chain|
    ensures id !in operations
  {
    if id in operations {
      var i :| 0 <= i < |chain| && chain[i] == id;
      LinkIdentity(operations, scope, chain, i);
    }
  }

  lemma {:induction false} WalkFromLink(
    operations: Operations, scope: Scope, chain: seq<CommandId>, now: Time, i: nat)
    requires Chained(operations, scope, chain, now) && i < |chain|
    ensures Walk(operations, chain[i], now, CHAIN_LIMIT - i) == EndOf(operations, scope, chain, now)
    decreases |chain| - i
  {
    if i + 1 < |chain| {
      var next := i + 1;
      assert Replaces(operations, chain[next], chain[i]);
      WalkFromLink(operations, scope, chain, now, next);
    } else if operations[chain[i]].grant.Some? {
      LinkIdentity(operations, scope, chain, i);
      NextIsFree(operations, scope, chain, now, Renewed(chain[i], operations[chain[i]].grant.value.grantId));
    }
  }

  /** The walk finds the end of the chain. */
  lemma WalkFindsEnd(operations: Operations, scope: Scope, chain: seq<CommandId>, now: Time)
    requires Chained(operations, scope, chain, now)
    ensures Walk(operations, Root(scope), now, CHAIN_LIMIT) == EndOf(operations, scope, chain, now)
  {
    if chain == [] {
      NextIsFree(operations, scope, chain, now, Root(scope));
    } else {
      WalkFromLink(operations, scope, chain, now, 0);
    }
  }

  /** A walk never leaves the identities of its scope. */
  lemma {:induction false} WalkStaysInScope(operations: Operations, id: CommandId, now: Time, steps: nat)
    ensures var place := Walk(operations, id, now, steps); !place.Beyond? ==> ScopeOf(place.id) == ScopeOf(id)
    decreases steps
  {
    if steps > 0 && id in operations && operations[id].grant.Some? {
      WalkStaysInScope(operations, Renewed(id, operations[id].grant.value.grantId), now, steps - 1);
    }
  }

  // ---------------------------------------------------------------- runs

  /** `FileGrant` is the grant route, the runtime service, or an overlapping call that filed its command
   *  before. */
  datatype Event =
    | Call(scope: Scope, now: Time, failure: Failure)
    | Revoke(id: CommandId, now: Time)
    | FileGrant(grant: Grant, now: Time)

  /** A grant is accepted for a stored command without one, under an id that no stored grant carries. */
  predicate Files(operations: Operations, e: Event, id: CommandId) {
    && e.FileGrant? && e.grant.commandId == id && e.grant.issuedAt < e.grant.expiresAt
    && id in operations && operations[id].grant.None? && !Taken(operations, e.grant.grantId)
  }

  function Apply(operations: Operations, e: Event): Operations {
    match e
    case Call(scope, now, failure) => Authorize(operations, scope, now, failure).0
    case Revoke(id, now) =>
      if id in operations && Live(operations[id], now) then operations[id := operations[id].(revoked := true)]
      else operations
    case FileGrant(grant, now) =>
      var id := grant.commandId;
      if Files(operations, e, id) then operations[id := operations[id].(grant := Some(grant))] else operations
  }

  function Run(operations: Operations, events: seq<Event>): Operations
    decreases |events|
  {
    if events == [] then operations else Run(Apply(operations, events[0]), events[1..])
  }

  /** The clock of the events does not run backwards, from `now` until `later`. */
  predicate Between(now: Time, events: seq<Event>, later: Time)
    decreases |events|
  {
    if events == [] then now <= later else now <= events[0].now && Between(events[0].now, events[1..], later)
  }

  ghost predicate HasChain(operations: Operations, scope: Scope, now: Time) {
    exists chain :: Chained(operations, scope, chain, now)
  }

  /** Every scope has a chain. */
  ghost predicate AllChained(operations: Operations, now: Time) {
    WellFiled(operations) && forall scope :: HasChain(operations, scope, now)
  }

  ghost function ChainOf(operations: Operations, scope: Scope, now: Time): (chain: seq<CommandId>)
    requires AllChained(operations, now)
    ensures Chained(operations, scope, chain, now)
  {
    assert HasChain(operations, scope, now);
    var chain :| Chained(operations, scope, chain, now);
    chain
  }

  /** Nothing of the scope differs. */
  ghost predicate SameScope(operations: Operations, next: Operations, scope: Scope) {
    forall id :: ScopeOf(id) == scope ==>
      (id in next <==> id in operations) && (id in operations ==> next[id] == operations[id])
  }

  lemma SameScopeKeepsChain(
    operations: Operations, next: Operations, scope: Scope, chain: seq<CommandId>, now: Time, later: Time)
    requires Chained(operations, scope, chain, now) && SameScope(operations, next, scope) && now <= later
    ensures Chained(next, scope, chain, later)
  {
    hide ScopeOf;
    forall i | 0 <= i < |chain|
      ensures ScopeOf(chain[i]) == scope
    {
      LinkIdentity(operations, scope, chain, i);
    }
  }

  /** A stored command is a link of its scope's chain, and one that is bare or live is the last link. */
  lemma BareOrLiveIsLast(operations: Operations, chain: seq<CommandId>, now: Time, id: CommandId)
    requires Chained(operations, ScopeOf(id), chain, now) && id in operations
    requires operations[id].grant.None? || Live(operations[id], now)
    ensures chain != [] && chain[|chain| - 1] == id
  {
    var i :| 0 <= i < |chain| && chain[i] == id;
    var next := i + 1;
    assert next < |chain| ==> Replaces(operations, chain[next], chain[i]);
  }

  /** The last link may be given any grant, or be revoked. */
  lemma LastLinkMayChange(
    operations: Operations, scope: Scope, chain: seq<CommandId>, now: Time, id: CommandId, o: Operation)
    requires Chained(operations, scope, chain, now) && id in operations && ScopeOf(id) == scope
    requires chain != [] && chain[|chain| - 1] == id
    ensures Chained(operations[id := o], scope, chain, now)
  {
    hide ScopeOf;
    forall i | 0 <= i < |chain| - 1
      ensures chain[i] != id
    {
      LinkIdentity(operations, scope, chain, i);
      LinkIdentity(operations, scope, chain, |chain| - 1);
    }
  }

  /** A new link goes where the walk found the free end. */
  lemma FreeEndExtends(operations: Operations, scope: Scope, chain: seq<CommandId>, now: Time, o: Operation)
    requires Chained(operations, scope, chain, now) && EndOf(operations, scope, chain, now).FreeAt?
    ensures var id := EndOf(operations, scope, chain, now).id; Chained(operations[id := o], scope, chain + [id], now)
  {
    hide ScopeOf;
    var id := EndOf(operations, scope, chain, now).id;
    var next := operations[id := o];
    var longer := chain + [id];
    WalkFindsEnd(operations, scope, chain, now);
    forall i, j | 0 <= i < j < |longer| && j == i + 1
      ensures Replaces(next, longer[j], longer[i])
    {
      assert j < |chain| ==> Replaces(operations, chain[j], chain[i]);
    }
    forall i | 0 <= i < |longer| - 1
      ensures !Live(next[longer[i]], now)
    {
      assert longer[i] == chain[i] && (i == |chain| - 1 || !Live(operations[chain[i]], now));
    }
    assert longer[|chain|] == id;
  }

  lemma EmptyIsChained(now: Time)
    ensures AllChained(map[], now)
  {
    forall scope
      ensures HasChain(map[], scope, now)
    {
      assert Chained(map[], scope, [], now);
    }
  }

  // ---------------------------------------------------------------- one event

  lemma FreeEndHasScope(operations: Operations, scope: Scope, now: Time)
    ensures var place := Walk(operations, Root(scope), now, CHAIN_LIMIT); !place.Beyond? ==> ScopeOf(place.id) == scope
  {
    hide Walk;
    WalkStaysInScope(operations, Root(scope), now, CHAIN_LIMIT);
  }

  /** A call writes nothing, or one new command of its own scope. */
  lemma CallWritesAtFreeEnd(operations: Operations, scope: Scope, now: Time, failure: Failure)
    ensures var next := Authorize(operations, scope, now, failure).0;
      && (forall id :: id in operations ==> id in next && next[id] == operations[id])
      && (forall id :: id in next && id !in operations ==> ScopeOf(id) == scope)
      && (forall other :: other != scope ==> SameScope(operations, next, other))
      && (WellFiled(operations) ==> WellFiled(next))
  {
    hide Walk, ScopeOf;
    FreeEndHasScope(operations, scope, now);
  }

  /** A call on this chain leaves it alone or appends one link after a dead end. */
  lemma CallKeepsChain(operations: Operations, scope: Scope, chain: seq<CommandId>, now: Time, failure: Failure)
    requires Chained(operations, scope, chain, now)
    ensures HasChain(Authorize(operations, scope, now, failure).0, scope, now)
  {
    hide Chained, Linked, Walk;
    WalkFindsEnd(operations, scope, chain, now);
    LinkedChain(operations, scope, chain, now);
    var place := EndOf(operations, scope, chain, now);
    var next := Authorize(operations, scope, now, failure).0;
    if next != operations {
      FreeEndExtends(operations, scope, chain, now, next[place.id]);
      assert next == operations[place.id := next[place.id]];
    }
  }

  lemma LinkedChain(operations: Operations, scope: Scope, chain: seq<CommandId>, now: Time)
    requires Chained(operations, scope, chain, now)
    ensures Linked(operations, scope, chain)
  {
  }

  /** The scope whose records an event may touch. */
  function Touches(e: Event): Scope {
    match e
    case Call(scope, _, _) => scope
    case Revoke(id, _) => ScopeOf(id)
    case FileGrant(grant, _) => ScopeOf(grant.commandId)
  }

  lemma ApplyKeepsOthers(operations: Operations, e: Event, scope: Scope)
    requires WellFiled(operations)
    ensures WellFiled(Apply(operations, e))
    ensures scope != Touches(e) ==> SameScope(operations, Apply(operations, e), scope)
  {
    hide ScopeOf, Authorize;
    if e.Call? {
      CallWritesAtFreeEnd(operations, e.scope, e.now, e.failure);
    }
  }

  lemma ApplyKeepsChain(operations: Operations, e: Event, chain: seq<CommandId>)
    requires WellFiled(operations) && Chained(operations, Touches(e), chain, e.now)
    ensures HasChain(Apply(operations, e), Touches(e), e.now)
  {
    hide Chained, ScopeOf, Authorize, WellFiled;
    var next := Apply(operations, e);
    if next == operations {
      assert HasChain(operations, Touches(e), e.now);
    } else {
      match e {
        case Call(scope, now, failure) => CallKeepsChain(operations, scope, chain, now, failure);
        case Revoke(id, now) =>
          BareOrLiveIsLast(operations, chain, now, id);
          LastLinkMayChange(operations, ScopeOf(id), chain, now, id, next[id]);
        case FileGrant(grant, now) =>
          BareOrLiveIsLast(operations, chain, now, grant.commandId);
          LastLinkMayChange(operations, ScopeOf(grant.commandId), chain, now, grant.commandId, next[grant.commandId]);
      }
    }
  }

  lemma ApplyKeepsChains(operations: Operations, e: Event)
    requires AllChained(operations, e.now)
    ensures AllChained(Apply(operations, e), e.now)
  {
    hide Chained, Apply, WellFiled, SameScope;
    forall scope
      ensures HasChain(Apply(operations, e), scope, e.now)
    {
      var chain := ChainOf(operations, scope, e.now);
      ApplyKeepsOthers(operations, e, scope);
      if scope == Touches(e) {
        ApplyKeepsChain(operations, e, chain);
      } else {
        SameScopeKeepsChain(operations, Apply(operations, e), scope, chain, e.now, e.now);
      }
    }
    ApplyKeepsOthers(operations, e, Touches(e));
  }

  lemma AllChainedLater(operations: Operations, now: Time, later: Time)
    requires AllChained(operations, now) && now <= later
    ensures AllChained(operations, later)
  {
    hide Chained, WellFiled;
    forall scope
      ensures HasChain(operations, scope, later)
    {
      SameScopeKeepsChain(operations, operations, scope, ChainOf(operations, scope, now), now, later);
    }
  }

  // ---------------------------------------------------------------- safety of all runs

  /** Over any calls, failures, revocations and grants filed from elsewhere, under a monotone clock, every
   *  stored command of a scope is a link of its one chain, at most 16 links long and dead but for the
   *  last. */
  lemma {:induction false} RunsKeepChains(operations: Operations, events: seq<Event>, now: Time, later: Time)
    requires AllChained(operations, now) && Between(now, events, later)
    ensures AllChained(Run(operations, events), later)
    decreases |events|
  {
    hide AllChained, Apply;
    if events == [] {
      AllChainedLater(operations, now, later);
    } else {
      AllChainedLater(operations, now, events[0].now);
      ApplyKeepsChains(operations, events[0]);
      RunsKeepChains(Apply(operations, events[0]), events[1..], events[0].now, later);
    }
  }

  /** At most one grant of a scope is live at any time of a run. */
  lemma AtMostOneLiveGrant(events: seq<Event>, start: Time, now: Time, a: CommandId, b: CommandId)
    requires Between(start, events, now)
    requires var o := Run(map[], events);
      && a in o && Live(o[a], now) && b in o && Live(o[b], now) && ScopeOf(a) == ScopeOf(b)
    ensures a == b && Depth(a) < CHAIN_LIMIT
  {
    hide Run, ScopeOf, Chained, Depth;
    EmptyIsChained(start);
    RunsKeepChains(map[], events, start, now);
    var o := Run(map[], events);
    var chain := ChainOf(o, ScopeOf(a), now);
    BareOrLiveIsLast(o, chain, now, a);
    BareOrLiveIsLast(o, chain, now, b);
    LinkedChain(o, ScopeOf(a), chain, now);
    LinkIdentity(o, ScopeOf(a), chain, |chain| - 1);
    AtMostLimit(o, ScopeOf(a), chain, now);
  }

  lemma AtMostLimit(operations: Operations, scope: Scope, chain: seq<CommandId>, now: Time)
    requires Chained(operations, scope, chain, now)
    ensures |chain| <= CHAIN_LIMIT
  {
  }

  lemma LiveIsReturned(operations: Operations, now: Time, id: CommandId, failure: Failure)
    requires AllChained(operations, now) && id in operations && Live(operations[id], now)
    ensures Authorize(operations, ScopeOf(id), now, failure) == (operations, Authorized(operations[id]))
  {
    hide ScopeOf, Chained, WellFiled, Walk, HasChain, Taken;
    var chain := ChainOf(operations, ScopeOf(id), now);
    BareOrLiveIsLast(operations, chain, now, id);
    WalkFindsEnd(operations, ScopeOf(id), chain, now);
  }

  /** Wherever it came from, a live grant is what a call of its scope returns, and nothing is written. */
  lemma LiveGrantIsReturned(events: seq<Event>, start: Time, now: Time, id: CommandId, failure: Failure)
    requires Between(start, events, now)
    requires id in Run(map[], events) && Live(Run(map[], events)[id], now)
    ensures var o := Run(map[], events); Authorize(o, ScopeOf(id), now, failure) == (o, Authorized(o[id]))
  {
    hide Run, ScopeOf, AllChained, Authorize;
    EmptyIsChained(start);
    RunsKeepChains(map[], events, start, now);
    LiveIsReturned(Run(map[], events), now, id, failure);
  }

  /** A grant that a call issued is what its scope is answered for the next fifteen minutes, unless it is revoked;
   *  after that, the call no longer returns it. */
  lemma NewGrantLasts(operations: Operations, scope: Scope, now: Time, later: Time, failure: Failure)
    requires AllChained(operations, now) && now <= later
    requires var (next, answer) := Authorize(operations, scope, now, NoFailure);
      answer.Authorized? && next != operations
    ensures var (next, answer) := Authorize(operations, scope, now, NoFailure);
      && (later < now + 15 * 60 * 1_000_000 ==> Authorize(next, scope, later, failure) == (next, answer))
      && (later >= now + 15 * 60 * 1_000_000 ==> Authorize(next, scope, later, failure).1 != answer)
  {
    hide ScopeOf, AllChained, Walk;
    var (next, answer) := Authorize(operations, scope, now, NoFailure);
    var id := answer.operation.operationId;
    FreeEndHasScope(operations, scope, now);
    ApplyKeepsChains(operations, Call(scope, now, NoFailure));
    AllChainedLater(next, now, later);
    if later < now + 15 * 60 * 1_000_000 {
      LiveIsReturned(next, later, id, failure);
    } else {
      AnsweredIsLive(next, scope, later, failure);
    }
  }

  /** Whatever a call answers with is live at that moment. */
  lemma AnsweredIsLive(operations: Operations, scope: Scope, now: Time, failure: Failure)
    ensures var (_, answer) := Authorize(operations, scope, now, failure);
      answer.Authorized? ==>
        answer.operation.grant.Some? && !answer.operation.revoked && answer.operation.grant.value.expiresAt > now
  {
  }

  // ---------------------------------------------------------------- refusal

  /** A stored command that has no grant. */
  predicate Bare(operations: Operations, id: CommandId) {
    id in operations && operations[id].grant.None?
  }

  /** The chain holds sixteen dead grants. */
  ghost predicate Exhausted(operations: Operations, scope: Scope, chain: seq<CommandId>, now: Time) {
    && |chain| == CHAIN_LIMIT && Chained(operations, scope, chain, now)
    && !Bare(operations, chain[|chain| - 1]) && !Live(operations[chain[|chain| - 1]], now)
  }

  /** An undisturbed call is refused exactly when the last link was left without a grant, when the
   *  sixteenth grant is dead, or when the id its new grant would have is taken. */
  lemma CallRefusedExactlyWhen(operations: Operations, scope: Scope, chain: seq<CommandId>, now: Time)
    requires Chained(operations, scope, chain, now)
    ensures !Authorize(operations, scope, now, NoFailure).1.Authorized? <==>
      || (chain != [] && Bare(operations, chain[|chain| - 1]))
      || Exhausted(operations, scope, chain, now)
      || (var place := EndOf(operations, scope, chain, now); place.FreeAt? && Taken(operations, GrantOf(place.id)))
  {
    hide ScopeOf;
    WalkFindsEnd(operations, scope, chain, now);
  }

  /** A call answers that a grant is missing exactly when some command of its scope has none. */
  lemma MissingIffBare(operations: Operations, scope: Scope, now: Time, failure: Failure)
    requires AllChained(operations, now)
    ensures Authorize(operations, scope, now, failure).1 == GrantMissing
       <==> exists id :: Bare(operations, id) && ScopeOf(id) == scope
    ensures Authorize(operations, scope, now, failure).1 == GrantMissing ==>
      Authorize(operations, scope, now, failure).0 == operations
  {
    hide ScopeOf, Chained, Walk;
    var chain := ChainOf(operations, scope, now);
    LinkedChain(operations, scope, chain, now);
    WalkFindsEnd(operations, scope, chain, now);
    if Authorize(operations, scope, now, failure).1 == GrantMissing {
      LinkIdentity(operations, scope, chain, |chain| - 1);
      assert Bare(operations, chain[|chain| - 1]);
    }
    forall id | Bare(operations, id) && ScopeOf(id) == scope
      ensures EndOf(operations, scope, chain, now) == BareAt(id)
    {
      BareOrLiveIsLast(operations, chain, now, id);
    }
  }

  /** Only one command of a scope is without a grant. */
  lemma BareIsUnique(operations: Operations, now: Time, a: CommandId, b: CommandId)
    requires AllChained(operations, now) && Bare(operations, a) && Bare(operations, b) && ScopeOf(a) == ScopeOf(b)
    ensures a == b
  {
    hide ScopeOf, Chained;
    var chain := ChainOf(operations, ScopeOf(a), now);
    BareOrLiveIsLast(operations, chain, now, a);
    BareOrLiveIsLast(operations, chain, now, b);
  }

  /** A command without a grant gets one from an event that files it, and from no other. */
  lemma BareUnlessFiled(operations: Operations, e: Event, id: CommandId)
    requires Bare(operations, id)
    ensures Bare(Apply(operations, e), id) <==> !Files(operations, e, id)
    ensures id in Apply(operations, e)
  {
    hide ScopeOf, Authorize, Taken;
    if e.Call? {
      CallWritesAtFreeEnd(operations, e.scope, e.now, e.failure);
    }
  }

  /** Some event of the run files a grant for the command. */
  predicate Granted(operations: Operations, events: seq<Event>, id: CommandId)
    decreases |events|
  {
    events != [] && (Files(operations, events[0], id) || Granted(Apply(operations, events[0]), events[1..], id))
  }

  /** Before, between and after the events, a call is told that its grant is missing. */
  predicate MissingThroughout(operations: Operations, scope: Scope, now: Time, events: seq<Event>, failure: Failure)
    decreases |events|
  {
    && Authorize(operations, scope, now, failure) == (operations, GrantMissing)
    && (events != [] ==>
          MissingThroughout(Apply(operations, events[0]), scope, events[0].now, events[1..], failure))
  }

  /** From a last link without a grant, its scope is refused for the missing grant, at every point of a run
   *  and without a write, exactly as long as no event of the run files a grant for that link. */
  lemma {:induction false} MissingUntilGranted(
    operations: Operations, id: CommandId, now: Time, events: seq<Event>, later: Time, failure: Failure)
    requires AllChained(operations, now) && Bare(operations, id) && Between(now, events, later)
    ensures MissingThroughout(operations, ScopeOf(id), now, events, failure) <==> !Granted(operations, events, id)
    ensures Bare(Run(operations, events), id) <==> !Granted(operations, events, id)
    decreases |events|
  {
    hide AllChained, Apply, Authorize, ScopeOf, Files;
    MissingIffBare(operations, ScopeOf(id), now, failure);
    if events != [] {
      var e, rest := events[0], events[1..];
      var next := Apply(operations, e);
      AllChainedLater(operations, now, e.now);
      ApplyKeepsChains(operations, e);
      BareUnlessFiled(operations, e, id);
      if Files(operations, e, id) {
        FiledIsNotMissing(operations, e, id, failure);
        GrantedStays(next, rest, id);
      } else {
        MissingUntilGranted(next, id, e.now, rest, later, failure);
      }
    }
  }

  lemma FiledIsNotMissing(operations: Operations, e: Event, id: CommandId, failure: Failure)
    requires AllChained(operations, e.now) && Bare(operations, id) && Files(operations, e, id)
    ensures Authorize(Apply(operations, e), ScopeOf(id), e.now, failure).1 != GrantMissing
  {
    hide AllChained, Authorize, ScopeOf, Taken;
    var next := Apply(operations, e);
    ApplyKeepsChains(operations, e);
    MissingIffBare(next, ScopeOf(id), e.now, failure);
    forall other | Bare(next, other)
      ensures ScopeOf(other) != ScopeOf(id)
    {
      if ScopeOf(other) == ScopeOf(id) {
        BareIsUnique(operations, e.now, id, other);
      }
    }
  }

  /** A grant, once filed, is never replaced or removed. */
  lemma {:induction false} GrantedStays(operations: Operations, events: seq<Event>, id: CommandId)
    requires id in operations && operations[id].grant.Some?
    ensures id in Run(operations, events) && Run(operations, events)[id].grant == operations[id].grant
    decreases |events|
  {
    hide Authorize, Taken;
    if events != [] {
      var e := events[0];
      if e.Call? {
        CallWritesAtFreeEnd(operations, e.scope, e.now, e.failure);
      }
      GrantedStays(Apply(operations, e), events[1..], id);
    }
  }

  /** A call cut between its command and its grant leaves such a link wherever it would have extended the
   *  chain. */
  lemma CutCallNeedsGrant(
    operations: Operations, scope: Scope, now: Time, events: seq<Event>, later: Time, failure: Failure)
    requires AllChained(operations, now) && Between(now, events, later)
    requires Walk(operations, Root(scope), now, CHAIN_LIMIT).FreeAt?
    ensures var id, next :=
        Walk(operations, Root(scope), now, CHAIN_LIMIT).id, Authorize(operations, scope, now, BetweenWrites).0;
      && Bare(next, id)
      && (MissingThroughout(next, scope, now, events, failure) <==> !Granted(next, events, id))
  {
    hide AllChained, Walk, ScopeOf, MissingThroughout, Granted;
    var cut := Call(scope, now, BetweenWrites);
    FreeEndHasScope(operations, scope, now);
    ApplyKeepsChains(operations, cut);
    var id := Walk(operations, Root(scope), now, CHAIN_LIMIT).id;
    MissingUntilGranted(Apply(operations, cut), id, now, events, later, failure);
  }

  // ---------------------------------------------------------------- refusal for good

  predicate Refused(operations: Operations, scope: Scope, now: Time) {
    !Authorize(operations, scope, now, NoFailure).1.Authorized?
  }

  ghost predicate RefusedForever(operations: Operations, scope: Scope, now: Time) {
    forall events, later :: Between(now, events, later) ==> Refused(Run(operations, events), scope, later)
  }

  /** No event files a grant for a command of the scope. */
  predicate Unaided(events: seq<Event>, scope: Scope)
    decreases |events|
  {
    events != [] ==> !(events[0].FileGrant? && Touches(events[0]) == scope) && Unaided(events[1..], scope)
  }

  ghost predicate RefusedUnaided(operations: Operations, scope: Scope, now: Time) {
    forall events, later :: Between(now, events, later) && Unaided(events, scope) ==>
      Refused(Run(operations, events), scope, later)
  }

  /** Nothing can touch a chain of sixteen dead grants. */
  lemma ExhaustedStays(operations: Operations, scope: Scope, chain: seq<CommandId>, e: Event)
    requires WellFiled(operations) && Exhausted(operations, scope, chain, e.now)
    ensures Exhausted(Apply(operations, e), scope, chain, e.now)
  {
    hide Chained, ScopeOf, Walk, WellFiled;
    WalkFindsEnd(operations, scope, chain, e.now);
    LinkedChain(operations, scope, chain, e.now);
    LinkIdentity(operations, scope, chain, |chain| - 1);
    if Touches(e) != scope {
      ApplyKeepsOthers(operations, e, scope);
      SameScopeKeepsChain(operations, Apply(operations, e), scope, chain, e.now, e.now);
    } else if Apply(operations, e) != operations && !e.Call? {
      BareOrLiveIsLast(operations, chain, e.now, if e.Revoke? then e.id else e.grant.commandId);
    }
  }

  lemma {:induction false} ExhaustedRefuses(
    operations: Operations, scope: Scope, chain: seq<CommandId>, now: Time, events: seq<Event>, later: Time)
    requires AllChained(operations, now) && Exhausted(operations, scope, chain, now) && Between(now, events, later)
    ensures Refused(Run(operations, events), scope, later)
    decreases |events|
  {
    hide Apply, Authorize, WellFiled, HasChain, Chained;
    if events == [] {
      ExhaustedLater(operations, scope, chain, now, later);
      CallRefusedExactlyWhen(operations, scope, chain, later);
    } else {
      var e := events[0];
      AllChainedLater(operations, now, e.now);
      ExhaustedLater(operations, scope, chain, now, e.now);
      ExhaustedStays(operations, scope, chain, e);
      ApplyKeepsChains(operations, e);
      ExhaustedRefuses(Apply(operations, e), scope, chain, e.now, events[1..], later);
    }
  }

  lemma ExhaustedLater(operations: Operations, scope: Scope, chain: seq<CommandId>, now: Time, later: Time)
    requires Exhausted(operations, scope, chain, now) && now <= later
    ensures Exhausted(operations, scope, chain, later)
  {
    hide Chained;
    SameScopeKeepsChain(operations, operations, scope, chain, now, later);
  }

  /** Some id is still free for a grant. */
  lemma {:induction false} FreshName(operations: Operations) returns (n: nat)
    ensures forall m: nat :: n <= m ==> !Taken(operations, Named(m))
    decreases |operations|
  {
    if operations == map[] {
      n := 0;
    } else {
      var id :| id in operations;
      var rest := operations - {id};
      assert rest.Keys == operations.Keys - {id};
      n := FreshName(rest);
      var o := operations[id];
      if o.grant.Some? && o.grant.value.grantId.Named? && o.grant.value.grantId.name >= n {
        n := o.grant.value.grantId.name + 1;
      }
      forall m: nat | n <= m
        ensures !Taken(operations, Named(m))
      {
        assert !Taken(rest, Named(m));
        assert forall other :: other in operations && other != id ==> other in rest && rest[other] == operations[other];
      }
    }
  }

  /** A link without a grant can always be given one that authorizes its scope at once. */
  lemma GrantUnblocks(operations: Operations, id: CommandId, now: Time) returns (e: Event)
    requires AllChained(operations, now) && Bare(operations, id)
    ensures e.now == now && Files(operations, e, id) && !Refused(Apply(operations, e), ScopeOf(id), now)
  {
    hide HasChain, ScopeOf, Taken, Authorize;
    var n := FreshName(operations);
    e := FileGrant(Grant(Named(n), id, now, now + GRANT_DURATION), now);
    assert !Taken(operations, Named(n));
    ApplyKeepsChains(operations, e);
    LiveIsReturned(Apply(operations, e), now, id, NoFailure);
  }

  /** Whatever happens later, a scope stays refused if and only if it holds sixteen dead grants. */
  lemma ExhaustionIsForever(operations: Operations, scope: Scope, now: Time)
    requires AllChained(operations, now)
    ensures RefusedForever(operations, scope, now) <==> exists chain :: Exhausted(operations, scope, chain, now)
  {
    hide AllChained, Exhausted, Authorize, Refused, Apply;
    forall chain, events, later | Exhausted(operations, scope, chain, now) && Between(now, events, later)
      ensures Refused(Run(operations, events), scope, later)
    {
      ExhaustedRefuses(operations, scope, chain, now, events, later);
    }
    if !exists chain :: Exhausted(operations, scope, chain, now) {
      var events := WayOut(operations, scope, now);
      assert !Refused(Run(operations, events), scope, now);
    }
  }

  /** From any other state, at most a call and a filed grant are needed. */
  lemma WayOut(operations: Operations, scope: Scope, now: Time) returns (events: seq<Event>)
    requires AllChained(operations, now) && !exists chain :: Exhausted(operations, scope, chain, now)
    ensures Between(now, events, now) && !Refused(Run(operations, events), scope, now)
  {
    hide ScopeOf, Walk, Chained, WellFiled, HasChain;
    var call := Call(scope, now, NoFailure);
    if !Refused(operations, scope, now) {
      events := [];
    } else {
      var chain := ChainOf(operations, scope, now);
      CallRefusedExactlyWhen(operations, scope, chain, now);
      WalkFindsEnd(operations, scope, chain, now);
      FreeEndHasScope(operations, scope, now);
      ApplyKeepsChains(operations, call);
      var id := EndOf(operations, scope, chain, now).id;
      var called := Apply(operations, call);
      var e := GrantUnblocks(called, id, now);
      events := [call, e];
      assert events[1..] == [e] && [e][1..] == [];
      assert Between(now, [e], now) && Run(called, [e]) == Apply(called, e);
    }
  }

  lemma TakenStays(operations: Operations, e: Event, grantId: GrantId)
    requires Taken(operations, grantId)
    ensures Taken(Apply(operations, e), grantId)
  {
    hide Authorize;
    var id :| id in operations && operations[id].grant.Some? && operations[id].grant.value.grantId == grantId;
    GrantedStays(operations, [e], id);
    assert Run(operations, [e]) == Apply(operations, e);
  }

  /** A refused scope stays refused over one event that files no grant for it. */
  lemma RefusedStays(operations: Operations, scope: Scope, e: Event)
    requires AllChained(operations, e.now) && Refused(operations, scope, e.now)
    requires !(e.FileGrant? && Touches(e) == scope)
    ensures Refused(Apply(operations, e), scope, e.now)
  {
    hide Chained, ScopeOf, Walk, WellFiled, HasChain, Taken;
    var next := Apply(operations, e);
    if next != operations {
      ApplyKeepsChains(operations, e);
      if Touches(e) != scope {
        RefusedBesideOthers(operations, scope, e);
      } else if e.Revoke? {
        LiveIsReturned(operations, e.now, e.id, NoFailure);
      } else {
        var chain := ChainOf(operations, scope, e.now);
        FreeEndHasScope(operations, scope, e.now);
        WalkFindsEnd(operations, scope, chain, e.now);
        var id := EndOf(operations, scope, chain, e.now).id;
        assert Bare(next, id) && ScopeOf(id) == scope;
        MissingIffBare(next, scope, e.now, NoFailure);
      }
    }
  }

  lemma RefusedBesideOthers(operations: Operations, scope: Scope, e: Event)
    requires AllChained(operations, e.now) && Refused(operations, scope, e.now) && Touches(e) != scope
    ensures Refused(Apply(operations, e), scope, e.now)
  {
    hide Chained, ScopeOf, WellFiled, HasChain, Taken, Authorize;
    var next := Apply(operations, e);
    var chain := ChainOf(operations, scope, e.now);
    ApplyKeepsOthers(operations, e, scope);
    SameScopeKeepsChain(operations, next, scope, chain, e.now, e.now);
    CallRefusedExactlyWhen(operations, scope, chain, e.now);
    CallRefusedExactlyWhen(next, scope, chain, e.now);
    LinkedChain(operations, scope, chain, e.now);
    if chain != [] {
      LinkIdentity(operations, scope, chain, |chain| - 1);
    }
    var place := EndOf(operations, scope, chain, e.now);
    if place.FreeAt? && Taken(operations, GrantOf(place.id)) {
      TakenStays(operations, e, GrantOf(place.id));
    }
  }

  lemma RefusedLater(operations: Operations, scope: Scope, now: Time, later: Time)
    requires AllChained(operations, now) && Refused(operations, scope, now) && now <= later
    ensures Refused(operations, scope, later)
  {
    hide Chained, ScopeOf, WellFiled, HasChain, Taken, Authorize;
    var chain := ChainOf(operations, scope, now);
    SameScopeKeepsChain(operations, operations, scope, chain, now, later);
    CallRefusedExactlyWhen(operations, scope, chain, now);
    CallRefusedExactlyWhen(operations, scope, chain, later);
  }

  lemma {:induction false} RefusedRun(
    operations: Operations, scope: Scope, now: Time, events: seq<Event>, later: Time)
    requires AllChained(operations, now) && Refused(operations, scope, now)
    requires Between(now, events, later) && Unaided(events, scope)
    ensures Refused(Run(operations, events), scope, later)
    decreases |events|
  {
    hide AllChained, Apply, Refused, Touches;
    if events == [] {
      RefusedLater(operations, scope, now, later);
    } else {
      var e := events[0];
      AllChainedLater(operations, now, e.now);
      RefusedLater(operations, scope, now, e.now);
      RefusedStays(operations, scope, e);
      ApplyKeepsChains(operations, e);
      RefusedRun(Apply(operations, e), scope, e.now, events[1..], later);
    }
  }

  /** Where no grant is filed from elsewhere, a scope that is refused once is refused for good. */
  lemma RefusedOnceIsRefusedUnaided(operations: Operations, scope: Scope, now: Time)
    requires AllChained(operations, now)
    ensures RefusedUnaided(operations, scope, now) <==> Refused(operations, scope, now)
  {
    hide AllChained, Refused, Apply;
    if Refused(operations, scope, now) {
      forall events, later | Between(now, events, later) && Unaided(events, scope)
        ensures Refused(Run(operations, events), scope, later)
      {
        RefusedRun(operations, scope, now, events, later);
      }
    } else {
      assert Between(now, [], now) && Unaided([], scope) && Run(operations, []) == operations;
    }
  }
}
