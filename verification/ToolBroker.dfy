/** The durable benchmark tool broker: one scoped host effect per call, read before it is executed and
 *  persisted before it is returned. The host records an effect by its id as it performs it, and would
 *  perform it again if it were asked again. */
module ToolBroker {

  /** A call as the broker receives it, with the token and arguments of this attempt. */
  datatype Call = Call(
    toolKey: string, operation: string, callId: nat, leaseId: nat, callRef: nat, leaseRef: nat,
    requested: string, token: nat, arguments: nat)

  /** The stored authorization of a call; `detail` is what the receipt copies from it. */
  datatype Authority = Authority(
    toolKey: string, operation: string, callId: nat, leaseId: nat, callRef: nat, leaseRef: nat, token: nat, detail: nat)

  datatype EffectId = EffectId(callRef: nat, leaseRef: nat, arguments: nat)

  datatype HostRequest = HostRequest(toolKey: string, operation: string, arguments: nat, effectId: EffectId)

  /** Content-addressed documents: a reference is its content. */
  datatype Document =
    | ValueDocument(value: nat)
    | ReceiptDocument(effectId: EffectId, toolKey: string, operation: string, detail: nat, result: Document)

  datatype EffectRow = EffectRow(
    callRef: nat, leaseRef: nat, resultRef: Document, receiptRef: Document, arguments: nat, token: nat)

  datatype HostReceipt = HostReceipt(request: HostRequest, value: nat)

  datatype State = State(
    authorizations: map<nat, Authority>, effects: map<nat, EffectRow>, artifacts: set<Document>,
    receipts: map<EffectId, HostReceipt>, performed: map<EffectId, nat>)

  datatype Reply = Delivered(value: nat, resultRef: Document, receiptRef: Document) | Unavailable | Crashed

  /** Where an attempt is cut short. */
  datatype Crash = BeforeEffect | AfterEffect | AfterResult | AfterReceipt | AfterPersist | Never

  datatype Attempt = Attempt(call: Call, answer: nat, crash: Crash)

  function EffectOf(call: Call): EffectId {
    EffectId(call.callRef, call.leaseRef, call.arguments)
  }

  function RequestOf(call: Call): HostRequest {
    HostRequest(call.toolKey, call.requested, call.arguments, EffectOf(call))
  }

  predicate Authorized(s: State, call: Call) {
    && call.callRef in s.authorizations
    && var a := s.authorizations[call.callRef];
    && a.toolKey == call.toolKey
    && call.operation == call.requested
    && a.operation == call.requested
    && a.callId == call.callId
    && a.leaseId == call.leaseId
    && a.callRef == call.callRef
    && a.leaseRef == call.leaseRef
    && a.token == call.token
  }

  function ReceiptOf(a: Authority, call: Call, result: Document): Document {
    ReceiptDocument(EffectOf(call), call.toolKey, call.requested, a.detail, result)
  }

  function RowOf(a: Authority, call: Call, value: nat): EffectRow {
    EffectRow(call.callRef, call.leaseRef, ValueDocument(value), ReceiptOf(a, call, ValueDocument(value)),
              call.arguments, call.token)
  }

  /** Read a stored result back, provided that it is bound to this very attempt. */
  function ReadStored(s: State, row: EffectRow, call: Call): Reply {
    if row.callRef != call.callRef || row.leaseRef != call.leaseRef || row.arguments != call.arguments
       || row.token != call.token || row.resultRef !in s.artifacts || row.receiptRef !in s.artifacts then Unavailable
    else
      match (row.resultRef, row.receiptRef)
      case (ValueDocument(value), ReceiptDocument(effectId, _, _, _, result)) =>
        if effectId.callRef == call.callRef && effectId.leaseRef == call.leaseRef && result == row.resultRef
           && effectId.arguments == call.arguments then Delivered(value, row.resultRef, row.receiptRef)
        else Unavailable
      case _ => Unavailable
  }

  function Performed(s: State, e: EffectId): nat {
    if e in s.performed then s.performed[e] else 0
  }

  function Perform(s: State, call: Call, answer: nat): State {
    s.(receipts := s.receipts[EffectOf(call) := HostReceipt(RequestOf(call), answer)],
       performed := s.performed[EffectOf(call) := Performed(s, EffectOf(call)) + 1])
  }

  /** Read the host's record of the effect, or have it performed. */
  function Effected(s: State, call: Call, answer: nat): (State, nat) {
    if EffectOf(call) in s.receipts then (s, s.receipts[EffectOf(call)].value) else (Perform(s, call, answer), answer)
  }

  /** Store the result and its receipt, and persist the row that binds them. */
  function Filed(s: State, call: Call, row: EffectRow, crash: Crash): State {
    if crash == AfterEffect then s
    else if crash == AfterResult then s.(artifacts := s.artifacts + {row.resultRef})
    else if crash == AfterReceipt then s.(artifacts := s.artifacts + {row.resultRef} + {row.receiptRef})
    else
      s.(artifacts := s.artifacts + {row.resultRef} + {row.receiptRef}, effects := s.effects[call.callRef := row])
  }

  /** One attempt: what it leaves behind, and what the caller sees. */
  function Try(s: State, attempt: Attempt): (State, Reply) {
    var Attempt(call, answer, crash) := attempt;
    if !Authorized(s, call) then (s, Unavailable)
    else if call.callRef in s.effects then (s, ReadStored(s, s.effects[call.callRef], call))
    else if crash == BeforeEffect then (s, Crashed)
    else if EffectOf(call) in s.receipts && s.receipts[EffectOf(call)].request != RequestOf(call) then (s, Unavailable)
    else
      var (after, value) := Effected(s, call, answer);
      var row := RowOf(s.authorizations[call.callRef], call, value);
      var last := Filed(after, call, row, crash);
      (last, if crash != Never then Crashed else ReadStored(last, row, call))
  }

  // ---------------------------------------------------------------- the object

  class Broker {
    var authorizations: map<nat, Authority>
    var effects: map<nat, EffectRow>
    var artifacts: set<Document>
    var receipts: map<EffectId, HostReceipt>
    var performed: map<EffectId, nat>

    ghost function Current(): State
      reads this
    {
      State(authorizations, effects, artifacts, receipts, performed)
    }

    constructor (authorizations: map<nat, Authority>)
      ensures Current() == State(authorizations, map[], {}, map[], map[])
    {
      this.authorizations, effects, artifacts, receipts, performed := authorizations, map[], {}, map[], map[];
    }

    /** The host performs the effect and records it by its id in one step. */
    method ExecuteEffect(call: Call, answer: nat) returns (value: nat)
      modifies this
      ensures value == answer && Current() == Perform(old(Current()), call, answer)
    {
      var e := EffectOf(call);
      performed := performed[e := (if e in performed then performed[e] else 0) + 1];
      receipts := receipts[e := HostReceipt(RequestOf(call), answer)];
      value := answer;
    }

    /** Store a document and hand out its reference. */
    method Put(document: Document) returns (reference: Document)
      modifies this
      ensures reference == document && Current() == old(Current()).(artifacts := old(artifacts) + {document})
    {
      artifacts := artifacts + {document};
      reference := document;
    }

    method Execute(call: Call, answer: nat, crash: Crash) returns (reply: Reply)
      modifies this
      ensures (Current(), reply) == Try(old(Current()), Attempt(call, answer, crash))
    {
      if !Authorized(State(authorizations, effects, artifacts, receipts, performed), call) {
        return Unavailable;
      }
      var authority := authorizations[call.callRef];
      if call.callRef in effects {
        return ReadStored(State(authorizations, effects, artifacts, receipts, performed), effects[call.callRef], call);
      }
      if crash == BeforeEffect {
        return Crashed;
      }
      var value;
      if EffectOf(call) in receipts {
        if receipts[EffectOf(call)].request != RequestOf(call) {
          return Unavailable;
        }
        value := receipts[EffectOf(call)].value;
      } else {
        value := ExecuteEffect(call, answer);
      }
      if crash == AfterEffect {
        return Crashed;
      }
      var resultRef := Put(ValueDocument(value));
      if crash == AfterResult {
        return Crashed;
      }
      var receiptRef := Put(ReceiptOf(authority, call, resultRef));
      if crash == AfterReceipt {
        return Crashed;
      }
      var row := EffectRow(call.callRef, call.leaseRef, resultRef, receiptRef, call.arguments, call.token);
      effects := effects[call.callRef := row];
      if crash == AfterPersist {
        return Crashed;
      }
      reply := ReadStored(State(authorizations, effects, artifacts, receipts, performed), effects[call.callRef], call);
    }
  }

  // ---------------------------------------------------------------- any number of attempts

  function TryAll(s: State, attempts: seq<Attempt>): (State, seq<Reply>)
    decreases |attempts|
  {
    if attempts == [] then (s, [])
    else
      var (next, reply) := Try(s, attempts[0]);
      var (last, replies) := TryAll(next, attempts[1..]);
      (last, [reply] + replies)
  }

  /** Every attempt at this call uses its arguments; other calls may do what they like. */
  predicate FixedArguments(call: Call, attempts: seq<Attempt>) {
    forall i :: 0 <= i < |attempts| && attempts[i].call.callRef == call.callRef ==>
      attempts[i].call.arguments == call.arguments
  }

  /** Nothing happened for this call yet. */
  predicate Untouched(s: State, call: Call) {
    call.callRef !in s.effects && EffectOf(call) !in s.receipts && Performed(s, EffectOf(call)) == 0
  }

  /** The effect happened at most once, and what is persisted is what the host recorded. */
  predicate Consistent(s: State, call: Call) {
    var e := EffectOf(call);
    && Performed(s, e) == (if e in s.receipts then 1 else 0)
    && (e in s.receipts ==> s.receipts[e].request == RequestOf(call))
    && (call.callRef in s.effects ==>
          && call.callRef in s.authorizations
          && e in s.receipts
          && s.effects[call.callRef] == RowOf(s.authorizations[call.callRef], call, s.receipts[e].value)
          && s.effects[call.callRef].resultRef in s.artifacts
          && s.effects[call.callRef].receiptRef in s.artifacts)
  }

  /** The one result a call may deliver once the host has performed its effect. */
  function ResultOf(s: State, call: Call): Reply
    requires call.callRef in s.authorizations && EffectOf(call) in s.receipts
  {
    var row := RowOf(s.authorizations[call.callRef], call, s.receipts[EffectOf(call)].value);
    Delivered(s.receipts[EffectOf(call)].value, row.resultRef, row.receiptRef)
  }

  /** What one attempt keeps of another call's progress, or of its own. */
  predicate Keeps(s: State, next: State, call: Call) {
    && Authorized(next, call) && Consistent(next, call)
    && next.authorizations == s.authorizations
    && (EffectOf(call) in s.receipts ==>
          EffectOf(call) in next.receipts && next.receipts[EffectOf(call)] == s.receipts[EffectOf(call)])
  }

  /** The stored authorization fixes everything about a call but its arguments. */
  lemma AuthorizedIsUnique(s: State, a: Call, b: Call)
    requires Authorized(s, a) && Authorized(s, b) && a.callRef == b.callRef && a.arguments == b.arguments
    ensures a == b
  {
  }

  lemma TryOwn(s: State, call: Call, answer: nat, crash: Crash)
    requires Authorized(s, call) && Consistent(s, call)
    ensures var (next, reply) := Try(s, Attempt(call, answer, crash));
      && Keeps(s, next, call)
      && (reply.Delivered? ==> EffectOf(call) in next.receipts && reply == ResultOf(next, call))
  {
  }

  /** An attempt only touches what belongs to its own call. */
  ghost predicate TouchesOnly(s: State, next: State, callRef: nat) {
    && next.authorizations == s.authorizations
    && s.artifacts <= next.artifacts
    && (forall k :: k != callRef ==> (k in next.effects <==> k in s.effects))
    && (forall k :: k != callRef && k in s.effects ==> next.effects[k] == s.effects[k])
    && (forall e: EffectId :: e.callRef != callRef ==> (e in next.receipts <==> e in s.receipts))
    && (forall e: EffectId :: e.callRef != callRef && e in s.receipts ==> next.receipts[e] == s.receipts[e])
    && (forall e: EffectId :: e.callRef != callRef ==> Performed(next, e) == Performed(s, e))
  }

  lemma EffectedTouchesOwn(s: State, call: Call, answer: nat)
    ensures TouchesOnly(s, Effected(s, call, answer).0, call.callRef)
  {
  }

  lemma FiledTouchesOwn(s: State, call: Call, row: EffectRow, crash: Crash)
    ensures TouchesOnly(s, Filed(s, call, row, crash), call.callRef)
  {
  }

  lemma TryTouchesOwn(s: State, attempt: Attempt)
    ensures TouchesOnly(s, Try(s, attempt).0, attempt.call.callRef)
  {
    hide ReadStored, Authorized, Effected, Filed, RowOf;
    var after := Effected(s, attempt.call, attempt.answer).0;
    EffectedTouchesOwn(s, attempt.call, attempt.answer);
    forall row
      ensures TouchesOnly(after, Filed(after, attempt.call, row, attempt.crash), attempt.call.callRef)
    {
      FiledTouchesOwn(after, attempt.call, row, attempt.crash);
    }
  }

  lemma TryOther(s: State, call: Call, attempt: Attempt)
    requires Authorized(s, call) && Consistent(s, call) && attempt.call.callRef != call.callRef
    ensures Keeps(s, Try(s, attempt).0, call)
  {
    hide Try, Authorized;
    TryTouchesOwn(s, attempt);
    AuthorizedDependsOnTable(s, Try(s, attempt).0, call);
  }

  lemma AuthorizedDependsOnTable(s: State, next: State, call: Call)
    requires next.authorizations == s.authorizations
    ensures Authorized(next, call) == Authorized(s, call)
  {
  }

  lemma TryConsistent(s: State, call: Call, attempt: Attempt)
    requires Authorized(s, call) && Consistent(s, call)
    requires attempt.call.callRef == call.callRef ==> attempt.call.arguments == call.arguments
    ensures var (next, reply) := Try(s, attempt);
      && Keeps(s, next, call)
      && (attempt.call.callRef == call.callRef && reply.Delivered? ==>
            EffectOf(call) in next.receipts && reply == ResultOf(next, call))
  {
    hide Consistent, ReadStored, Perform;
    if attempt.call.callRef != call.callRef {
      TryOther(s, call, attempt);
    } else if Authorized(s, attempt.call) {
      AuthorizedIsUnique(s, attempt.call, call);
      TryOwn(s, call, attempt.answer, attempt.crash);
    }
  }

  /** Over any attempts, interleaved with other calls and cut short anywhere, the host performs the
   *  effect of an authorized call at most once, and all delivered results of the call are the same. */
  lemma {:induction false} OneEffectOneResult(s: State, call: Call, attempts: seq<Attempt>)
    requires Authorized(s, call) && Consistent(s, call) && FixedArguments(call, attempts)
    ensures var (last, replies) := TryAll(s, attempts);
      && Performed(last, EffectOf(call)) <= 1
      && Consistent(last, call)
      && last.authorizations == s.authorizations
      && (EffectOf(call) in s.receipts ==>
            EffectOf(call) in last.receipts && last.receipts[EffectOf(call)] == s.receipts[EffectOf(call)])
      && |replies| == |attempts|
      && forall i :: 0 <= i < |attempts| && attempts[i].call.callRef == call.callRef && replies[i].Delivered? ==>
           EffectOf(call) in last.receipts && replies[i] == ResultOf(last, call)
    decreases |attempts|
  {
    hide Try, Authorized;
    if attempts != [] {
      var next := Try(s, attempts[0]).0;
      TryConsistent(s, call, attempts[0]);
      OneEffectOneResult(next, call, attempts[1..]);
    }
  }

  // ---------------------------------------------------------------- delivery

  /** The stored authorization is for this very call, and the tool was asked for the operation it declares. */
  ghost predicate Grants(authorizations: map<nat, Authority>, call: Call) {
    && call.callRef in authorizations && call.requested == call.operation
    && authorizations[call.callRef]
       == Authority(call.toolKey, call.operation, call.callId, call.leaseId, call.callRef, call.leaseRef, call.token,
                    authorizations[call.callRef].detail)
  }

  /** An attempt without an authorization of its own delivers nothing and changes nothing. */
  lemma UngrantedIsRefused(s: State, attempt: Attempt)
    ensures Authorized(s, attempt.call) <==> Grants(s.authorizations, attempt.call)
    ensures !Grants(s.authorizations, attempt.call) ==> Try(s, attempt) == (s, Unavailable)
  {
  }

  /** What is on record for a call: the host's receipt under its effect id, if any, and its persisted row with
   *  both documents, if any, all for the call's own arguments. */
  ghost predicate OnRecord(s: State, call: Call, value: nat) {
    && call.callRef in s.authorizations
    && var e := EffectId(call.callRef, call.leaseRef, call.arguments);
    var result := ValueDocument(value);
    var receipt := ReceiptDocument(e, call.toolKey, call.operation, s.authorizations[call.callRef].detail, result);
    && e in s.receipts
    && s.receipts[e] == HostReceipt(HostRequest(call.toolKey, call.operation, call.arguments, e), value)
    && (call.callRef in s.effects ==>
          && s.effects[call.callRef]
             == EffectRow(call.callRef, call.leaseRef, result, receipt, call.arguments, call.token)
          && result in s.artifacts && receipt in s.artifacts)
  }

  /** Nothing was recorded for the call, or a value was. */
  ghost predicate Regular(s: State, call: Call) {
    var e := EffectId(call.callRef, call.leaseRef, call.arguments);
    if e in s.receipts then OnRecord(s, call, s.receipts[e].value) else call.callRef !in s.effects
  }

  lemma ConsistentIsRegular(s: State, call: Call)
    requires Grants(s.authorizations, call) && Consistent(s, call)
    ensures Regular(s, call)
  {
  }

  /** An authorized attempt delivers the value on record, or else its own answer, with references to it and to a
   *  receipt that names the effect; the row is persisted with just these. Cut before, it delivers nothing. */
  lemma AuthorizedAttemptDelivers(s: State, call: Call, answer: nat, crash: Crash)
    requires Grants(s.authorizations, call) && Regular(s, call)
    ensures var (next, reply) := Try(s, Attempt(call, answer, crash));
      var e := EffectId(call.callRef, call.leaseRef, call.arguments);
      var value := if e in s.receipts then s.receipts[e].value else answer;
      var result := ValueDocument(value);
      var receipt := ReceiptDocument(e, call.toolKey, call.operation, s.authorizations[call.callRef].detail, result);
      && (crash == Never || call.callRef in s.effects ==> reply == Delivered(value, result, receipt))
      && (crash != Never && call.callRef !in s.effects ==> reply == Crashed)
      && (crash == BeforeEffect && call.callRef !in s.effects ==> next == s)
      && (crash != BeforeEffect || call.callRef in s.effects ==> OnRecord(next, call, value))
      && (crash == AfterPersist || crash == Never ==> call.callRef in next.effects)
      && Regular(next, call) && next.authorizations == s.authorizations
  {
  }

  /** The attempt is one at this call, authorized as it is. */
  ghost predicate At(authorizations: map<nat, Authority>, call: Call, attempt: Attempt) {
    attempt.call.callRef == call.callRef && Grants(authorizations, attempt.call)
  }

  /** The first authorized attempt at the call that is not cut before the host answers. */
  ghost predicate FirstToReach(authorizations: map<nat, Authority>, call: Call, attempts: seq<Attempt>, j: nat) {
    && j < |attempts| && At(authorizations, call, attempts[j]) && attempts[j].crash != BeforeEffect
    && forall i :: 0 <= i < j && At(authorizations, call, attempts[i]) ==> attempts[i].crash == BeforeEffect
  }

  lemma AttemptsAgree(authorizations: map<nat, Authority>, call: Call, other: Call)
    requires Grants(authorizations, call) && Grants(authorizations, other)
    requires other.callRef == call.callRef && other.arguments == call.arguments
    ensures other == call
  {
  }

  /** One attempt, of this call or another, keeps what is on record for this call. */
  lemma RecordStays(s: State, call: Call, attempt: Attempt)
    requires Grants(s.authorizations, call) && Regular(s, call)
    requires attempt.call.callRef == call.callRef ==> attempt.call.arguments == call.arguments
    ensures var next, e := Try(s, attempt).0, EffectId(call.callRef, call.leaseRef, call.arguments);
      && next.authorizations == s.authorizations && Regular(next, call)
      && (e in s.receipts ==> e in next.receipts && next.receipts[e] == s.receipts[e])
      && (e !in s.receipts && !(At(s.authorizations, call, attempt) && attempt.crash != BeforeEffect) ==>
            e !in next.receipts)
  {
    UngrantedIsRefused(s, attempt);
    if attempt.call.callRef != call.callRef {
      hide Try;
      TryTouchesOwn(s, attempt);
    } else if Grants(s.authorizations, attempt.call) {
      AttemptsAgree(s.authorizations, call, attempt.call);
      AuthorizedAttemptDelivers(s, call, attempt.answer, attempt.crash);
    }
  }

  /** A value as it is delivered for the call. */
  ghost function Delivery(authorizations: map<nat, Authority>, call: Call, value: nat): Reply
    requires call.callRef in authorizations
  {
    Delivered(value, ValueDocument(value),
              ReceiptDocument(EffectId(call.callRef, call.leaseRef, call.arguments), call.toolKey, call.operation,
                              authorizations[call.callRef].detail, ValueDocument(value)))
  }

  /** Once the host has a value on record, every full attempt delivers it. */
  lemma {:induction false} RecordIsDelivered(s: State, call: Call, attempts: seq<Attempt>, i: nat)
    requires Grants(s.authorizations, call) && Regular(s, call) && FixedArguments(call, attempts)
    requires EffectId(call.callRef, call.leaseRef, call.arguments) in s.receipts
    requires i < |attempts| && At(s.authorizations, call, attempts[i]) && attempts[i].crash == Never
    ensures |TryAll(s, attempts).1| == |attempts|
    ensures TryAll(s, attempts).1[i]
         == Delivery(s.authorizations, call, s.receipts[EffectId(call.callRef, call.leaseRef, call.arguments)].value)
    decreases |attempts|
  {
    hide Try, Regular, OnRecord;
    var next := Try(s, attempts[0]).0;
    RepliesMatch(next, attempts[1..]);
    RecordStays(s, call, attempts[0]);
    if i == 0 {
      AttemptsAgree(s.authorizations, call, attempts[0].call);
      AuthorizedAttemptDelivers(s, call, attempts[0].answer, Never);
    } else {
      RecordIsDelivered(next, call, attempts[1..], i - 1);
    }
  }

  lemma {:induction false} RepliesMatch(s: State, attempts: seq<Attempt>)
    ensures |TryAll(s, attempts).1| == |attempts|
    decreases |attempts|
  {
    hide Try;
    if attempts != [] {
      RepliesMatch(Try(s, attempts[0]).0, attempts[1..]);
    }
  }

  /** Over any attempts, interleaved with other calls and cut short anywhere: every authorized attempt at the
   *  call that is not cut short delivers, and what it delivers is the value on record before, or else the answer
   *  of the first authorized attempt that reached the host. */
  lemma {:induction false} EveryFullAttemptDelivers(s: State, call: Call, attempts: seq<Attempt>, i: nat, j: nat)
    requires Grants(s.authorizations, call) && Regular(s, call) && FixedArguments(call, attempts)
    requires i < |attempts| && At(s.authorizations, call, attempts[i]) && attempts[i].crash == Never
    requires FirstToReach(s.authorizations, call, attempts, j)
    ensures j <= i && |TryAll(s, attempts).1| == |attempts|
    ensures var e := EffectId(call.callRef, call.leaseRef, call.arguments);
      TryAll(s, attempts).1[i]
      == Delivery(s.authorizations, call, if e in s.receipts then s.receipts[e].value else attempts[j].answer)
    decreases |attempts|
  {
    hide Try, Regular, Grants;
    var e := EffectId(call.callRef, call.leaseRef, call.arguments);
    RepliesMatch(s, attempts);
    if e in s.receipts {
      RecordIsDelivered(s, call, attempts, i);
    } else {
      var next := Try(s, attempts[0]).0;
      RepliesMatch(next, attempts[1..]);
      RecordStays(s, call, attempts[0]);
      if j > 0 {
        EveryFullAttemptDelivers(next, call, attempts[1..], i - 1, j - 1);
      } else {
        AttemptsAgree(s.authorizations, call, attempts[0].call);
        AuthorizedAttemptDelivers(s, call, attempts[0].answer, attempts[0].crash);
        if i > 0 {
          RecordIsDelivered(next, call, attempts[1..], i - 1);
        }
      }
    }
  }

  lemma UntouchedIsConsistent(s: State, call: Call)
    requires Untouched(s, call)
    ensures Consistent(s, call)
  {
  }

  /** Once a result is persisted, an attempt with another token, lease or argument delivers nothing and
   *  changes nothing. */
  lemma PersistedBindsAttempts(s: State, attempt: Attempt)
    requires attempt.call.callRef in s.effects
    requires var row := s.effects[attempt.call.callRef];
      || row.arguments != attempt.call.arguments || row.token != attempt.call.token
      || row.leaseRef != attempt.call.leaseRef
    ensures Try(s, attempt) == (s, Unavailable)
  {
  }

  /** From a state without any trace of the call, the host performs its effect at most once and every two
   *  delivered results of the call are the same. */
  lemma UntouchedCallHasOneEffect(s: State, call: Call, attempts: seq<Attempt>, i: nat, j: nat)
    requires Authorized(s, call) && Untouched(s, call) && FixedArguments(call, attempts)
    requires i < |attempts| && attempts[i].call.callRef == call.callRef
    requires j < |attempts| && attempts[j].call.callRef == call.callRef
    ensures var (last, replies) := TryAll(s, attempts);
      && Performed(last, EffectOf(call)) <= 1
      && |replies| == |attempts|
      && (replies[i].Delivered? && replies[j].Delivered? ==> replies[i] == replies[j])
  {
    hide Authorized, Untouched, Consistent;
    UntouchedIsConsistent(s, call);
    OneEffectOneResult(s, call, attempts);
  }

  // ---------------------------------------------------------------- exactly when one effect is kept

  /** All performances of a call's effects, whatever their arguments: one element for each. */
  ghost function Performances(s: State, callRef: nat): set<(EffectId, nat)> {
    set e, k: nat | e in s.performed && e.callRef == callRef && k < s.performed[e] :: (e, k)
  }

  /** The attempt gets past the checks of its authority and is not cut before the effect. */
  predicate Reaches(s: State, callRef: nat, attempt: Attempt) {
    attempt.call.callRef == callRef && Authorized(s, attempt.call) && attempt.crash != BeforeEffect
  }

  /** The attempt is not cut before its row is persisted. */
  predicate Persists(attempt: Attempt) {
    attempt.crash == AfterPersist || attempt.crash == Never
  }

  /** Arguments of the attempts that reach the host: the authorized ones that are not cut before the effect,
   *  up to the first of them that persists its row. */
  function HostArguments(s: State, callRef: nat, attempts: seq<Attempt>): set<nat> {
    if attempts == [] then {}
    else if !Reaches(s, callRef, attempts[0]) then HostArguments(s, callRef, attempts[1..])
    else if Persists(attempts[0]) then {attempts[0].call.arguments}
    else {attempts[0].call.arguments} + HostArguments(s, callRef, attempts[1..])
  }

  /** No row, no receipt and no performance under any effect id of the call. */
  ghost predicate Traceless(s: State, callRef: nat) {
    && callRef !in s.effects
    && (forall e :: e in s.receipts ==> e.callRef != callRef)
    && (forall e: EffectId :: e.callRef == callRef ==> Performed(s, e) == 0)
  }

  /** The stored authorization fixes the effect id and the request of a call up to its arguments. */
  function EffectWith(a: Authority, arguments: nat): EffectId {
    EffectId(a.callRef, a.leaseRef, arguments)
  }

  function RequestWith(a: Authority, arguments: nat): HostRequest {
    HostRequest(a.toolKey, a.operation, arguments, EffectWith(a, arguments))
  }

  /** The host has performed the call's effect once for each of these arguments, and recorded it. */
  ghost predicate PerformedFor(s: State, callRef: nat, arguments: set<nat>) {
    && (callRef !in s.authorizations || s.authorizations[callRef].callRef != callRef ==> arguments == {})
    && (forall e: EffectId :: e.callRef == callRef ==>
          (e in s.receipts <==>
             && e.arguments in arguments && callRef in s.authorizations
             && e == EffectWith(s.authorizations[callRef], e.arguments)))
    && (forall e: EffectId :: e.callRef == callRef ==> Performed(s, e) == if e in s.receipts then 1 else 0)
    && (forall e :: e in s.receipts && e.callRef == callRef && callRef in s.authorizations ==>
          s.receipts[e].request == RequestWith(s.authorizations[callRef], e.arguments))
  }

  lemma TracelessIsPerformedForNone(s: State, callRef: nat)
    requires Traceless(s, callRef)
    ensures PerformedFor(s, callRef, {})
  {
  }

  lemma AuthorizedCallIsFixed(s: State, call: Call)
    requires Authorized(s, call)
    ensures call.callRef in s.authorizations && s.authorizations[call.callRef].callRef == call.callRef
    ensures EffectOf(call) == EffectWith(s.authorizations[call.callRef], call.arguments)
    ensures RequestOf(call) == RequestWith(s.authorizations[call.callRef], call.arguments)
  {
  }

  /** Having the effect performed, or reading it, adds its arguments. */
  lemma EffectedStep(s: State, call: Call, answer: nat, arguments: set<nat>)
    requires PerformedFor(s, call.callRef, arguments) && Authorized(s, call)
    ensures PerformedFor(Effected(s, call, answer).0, call.callRef, arguments + {call.arguments})
    ensures EffectOf(call) in s.receipts ==> s.receipts[EffectOf(call)].request == RequestOf(call)
  {
    hide Authorized;
    AuthorizedCallIsFixed(s, call);
  }

  lemma FiledStep(s: State, call: Call, row: EffectRow, crash: Crash, arguments: set<nat>)
    requires PerformedFor(s, call.callRef, arguments) && crash != BeforeEffect
    ensures var next := Filed(s, call, row, crash);
      && PerformedFor(next, call.callRef, arguments)
      && (call.callRef !in s.effects ==> (call.callRef in next.effects <==> crash == AfterPersist || crash == Never))
  {
  }

  /** What an attempt that reaches the host leaves of its call. */
  lemma ReachingStep(s: State, callRef: nat, arguments: set<nat>, attempt: Attempt)
    requires PerformedFor(s, callRef, arguments) && callRef !in s.effects && Reaches(s, callRef, attempt)
    ensures var next := Try(s, attempt).0;
      && PerformedFor(next, callRef, arguments + {attempt.call.arguments})
      && (callRef in next.effects <==> Persists(attempt))
      && next.authorizations == s.authorizations
  {
    hide ReadStored, Authorized, RowOf, PerformedFor, Filed, EffectOf, RequestOf;
    var Attempt(call, answer, crash) := attempt;
    AuthorizedCallIsFixed(s, call);
    EffectedStep(s, call, answer, arguments);
    var after, value := Effected(s, call, answer).0, Effected(s, call, answer).1;
    var row := RowOf(s.authorizations[callRef], call, value);
    FiledStep(after, call, row, crash, arguments + {call.arguments});
    TryTouchesOwn(s, attempt);
  }

  /** An attempt at the call that does not reach the host changes nothing. */
  lemma UnreachingStep(s: State, callRef: nat, attempt: Attempt)
    requires attempt.call.callRef == callRef && (callRef in s.effects || !Reaches(s, callRef, attempt))
    ensures Try(s, attempt).0 == s
  {
    hide ReadStored, Authorized;
  }

  lemma OtherStep(s: State, callRef: nat, arguments: set<nat>, attempt: Attempt)
    requires PerformedFor(s, callRef, arguments) && attempt.call.callRef != callRef
    ensures var next := Try(s, attempt).0;
      && PerformedFor(next, callRef, arguments)
      && (callRef in next.effects <==> callRef in s.effects)
      && next.authorizations == s.authorizations
  {
    hide Try;
    TryTouchesOwn(s, attempt);
  }

  lemma HostArgumentsFollowTable(s: State, next: State, callRef: nat, attempts: seq<Attempt>)
    requires next.authorizations == s.authorizations
    ensures HostArguments(next, callRef, attempts) == HostArguments(s, callRef, attempts)
  {
    if attempts != [] {
      AuthorizedDependsOnTable(s, next, attempts[0].call);
      HostArgumentsFollowTable(s, next, callRef, attempts[1..]);
    }
  }

  lemma {:induction false} EffectsFollowArguments(s: State, callRef: nat, arguments: set<nat>, attempts: seq<Attempt>)
    requires PerformedFor(s, callRef, arguments)
    ensures PerformedFor(TryAll(s, attempts).0, callRef,
                         arguments + if callRef in s.effects then {} else HostArguments(s, callRef, attempts))
    decreases |attempts|
  {
    hide Try, PerformedFor, Reaches;
    if attempts == [] {
      assert arguments + {} == arguments;
    } else {
      var attempt, rest := attempts[0], attempts[1..];
      var next := Try(s, attempt).0;
      if attempt.call.callRef != callRef {
        OtherStep(s, callRef, arguments, attempt);
        OtherDoesNotReach(s, callRef, attempt);
        HostArgumentsFollowTable(s, next, callRef, rest);
        EffectsFollowArguments(next, callRef, arguments, rest);
      } else if callRef in s.effects || !Reaches(s, callRef, attempt) {
        UnreachingStep(s, callRef, attempt);
        EffectsFollowArguments(s, callRef, arguments, rest);
      } else {
        var more := arguments + {attempt.call.arguments};
        ReachingStep(s, callRef, arguments, attempt);
        HostArgumentsFollowTable(s, next, callRef, rest);
        EffectsFollowArguments(next, callRef, more, rest);
        assert more + {} == more;
        assert more + HostArguments(s, callRef, rest)
            == arguments + ({attempt.call.arguments} + HostArguments(s, callRef, rest));
      }
    }
  }

  lemma OtherDoesNotReach(s: State, callRef: nat, attempt: Attempt)
    requires attempt.call.callRef != callRef
    ensures !Reaches(s, callRef, attempt)
  {
  }

  /** Performances and arguments correspond one to one. */
  lemma {:induction false} PerformancesCount(s: State, callRef: nat, arguments: set<nat>)
    requires PerformedFor(s, callRef, arguments)
    ensures |Performances(s, callRef)| == |arguments|
  {
    if callRef in s.authorizations && s.authorizations[callRef].callRef == callRef {
      var a := s.authorizations[callRef];
      forall p: (EffectId, nat)
        ensures p in Performances(s, callRef)
          <==> (p.1 == 0 && p.0.arguments in arguments && p.0 == EffectWith(a, p.0.arguments))
      {
        assert p == (p.0, p.1);
      }
      CountImages(a, arguments, Performances(s, callRef));
    } else {
      assert Performances(s, callRef) == {};
    }
  }

  lemma {:induction false} CountImages(a: Authority, arguments: set<nat>, images: set<(EffectId, nat)>)
    requires forall p: (EffectId, nat) ::
      p in images <==> (p.1 == 0 && p.0.arguments in arguments && p.0 == EffectWith(a, p.0.arguments))
    ensures |images| == |arguments|
    decreases arguments
  {
    if arguments == {} {
      assert images == {};
    } else {
      var x :| x in arguments;
      var image := (EffectWith(a, x), 0);
      assert image in images;
      CountImages(a, arguments - {x}, images - {image});
    }
  }

  /** Over any attempts from a traceless state, interleaved with other calls and cut short anywhere, the host
   *  performs as many effects of the call, over all arguments, as there are distinct arguments among the
   *  attempts that reach it. */
  lemma EffectsAreDistinctHostArguments(s: State, callRef: nat, attempts: seq<Attempt>)
    requires Traceless(s, callRef)
    ensures |Performances(TryAll(s, attempts).0, callRef)| == |HostArguments(s, callRef, attempts)|
  {
    hide PerformedFor, Performances, TryAll;
    TracelessIsPerformedForNone(s, callRef);
    EffectsFollowArguments(s, callRef, {}, attempts);
    assert {} + HostArguments(s, callRef, attempts) == HostArguments(s, callRef, attempts);
    PerformancesCount(TryAll(s, attempts).0, callRef, HostArguments(s, callRef, attempts));
  }

  lemma AtMostOneElement(xs: set<nat>)
    ensures |xs| <= 1 <==> forall x, y :: x in xs && y in xs ==> x == y
  {
    if x :| x in xs {
      assert xs == {x} + (xs - {x});
      if |xs| > 1 {
        var y :| y in xs - {x};
      } else {
        assert xs == {x};
      }
    }
  }

  /** The host performs at most one effect of the call if and only if all attempts that reach it carry the
   *  same arguments. */
  lemma OneEffectIffSameHostArguments(s: State, callRef: nat, attempts: seq<Attempt>)
    requires Traceless(s, callRef)
    ensures |Performances(TryAll(s, attempts).0, callRef)| <= 1
      <==> (forall x, y ::
              x in HostArguments(s, callRef, attempts) && y in HostArguments(s, callRef, attempts) ==> x == y)
  {
    hide Performances, TryAll, HostArguments, Traceless;
    EffectsAreDistinctHostArguments(s, callRef, attempts);
    AtMostOneElement(HostArguments(s, callRef, attempts));
  }

  /** With changed arguments, a crash before persistence does let the host perform two effects. */
  lemma ChangedArgumentsPerformTwice(call: Call, other: nat, a: Authority)
    requires other != call.arguments && call.operation == call.requested
    requires a == Authority(call.toolKey, call.requested, call.callId, call.leaseId, call.callRef, call.leaseRef,
                            call.token, a.detail)
    ensures var s := State(map[call.callRef := a], map[], {}, map[], map[]);
      var last := TryAll(s, [Attempt(call, 0, AfterEffect), Attempt(call.(arguments := other), 0, Never)]).0;
      && Authorized(s, call) && Traceless(s, call.callRef)
      && Performed(last, EffectOf(call)) + Performed(last, EffectOf(call.(arguments := other))) == 2
      && |Performances(last, call.callRef)| == 2
  {
    var s := State(map[call.callRef := a], map[], {}, map[], map[]);
    var attempts := [Attempt(call, 0, AfterEffect), Attempt(call.(arguments := other), 0, Never)];
    var next := Try(s, attempts[0]).0;
    assert attempts[1..][0] == attempts[1] && attempts[1..][1..] == [];
    assert TryAll(s, attempts).0 == TryAll(next, attempts[1..]).0 == Try(next, attempts[1]).0;
    EffectsAreDistinctHostArguments(s, call.callRef, attempts);
    assert HostArguments(s, call.callRef, attempts[1..]) == {other};
    assert HostArguments(s, call.callRef, attempts) == {call.arguments, other};
  }
}
