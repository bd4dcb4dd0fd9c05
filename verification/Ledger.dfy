/** The hash-chained ledger of blockchain/Blockchain_modell.py: blocks mutated in place, their stored
 *  records, and the chain verifier. */
module Ledger {
  import opened Wrappers

  /** What a block hash may hold: the first link's literal, a digest, or any other text. */
  datatype Link = Zero | Sha(payload: Payload) | Text(content: nat)

  /** The hashed part of a block. */
  datatype Payload = Payload(index: nat, blockType: string, data: nat, previousHash: Link, parent: Option<int>)

  /** A block as storage holds it; status, children and metadata are outside the hash. */
  datatype BlockRecord = BlockRecord(payload: Payload, status: string, children: seq<nat>, metadata: nat, hash: Link)

  // ---------------------------------------------------------------- verification

  function PreviousLink(chain: seq<BlockRecord>, i: nat): Link
    requires i <= |chain|
  {
    if i == 0 then Zero else chain[i - 1].hash
  }

  predicate Linked(chain: seq<BlockRecord>) {
    forall i :: 0 <= i < |chain| ==> LinkedAt(chain, i)
  }

  predicate LinkedAt(chain: seq<BlockRecord>, i: nat)
    requires i < |chain|
  {
    chain[i].payload.previousHash == PreviousLink(chain, i) && chain[i].hash == Sha(chain[i].payload)
  }

  datatype Verdict = Verified | BrokenLink(at: nat) | HashMismatch(at: nat)

  /** Walk the chain; the first bad block decides the error. */
  method VerifyChain(chain: seq<BlockRecord>) returns (verdict: Verdict)
    ensures verdict.Verified? <==> Linked(chain)
    ensures !verdict.Verified? ==>
      exists i :: && 0 <= i < |chain| && !LinkedAt(chain, i) && Linked(chain[..i])
                  && verdict == if chain[i].payload.previousHash != PreviousLink(chain, i)
                                then BrokenLink(chain[i].payload.index) else HashMismatch(chain[i].payload.index)
  {
    var previousHash := Zero;
    for i := 0 to |chain|
      invariant previousHash == PreviousLink(chain, i)
      invariant forall j :: 0 <= j < i ==> LinkedAt(chain, j)
    {
      var block := chain[i];
      assert Linked(chain[..i]) by {
        assert forall j :: 0 <= j < i ==> LinkedAt(chain[..i], j) == LinkedAt(chain, j);
      }
      if block.payload.previousHash != previousHash {
        assert !LinkedAt(chain, i);
        return BrokenLink(block.payload.index);
      }
      if block.hash != Sha(block.payload) {
        assert !LinkedAt(chain, i);
        return HashMismatch(block.payload.index);
      }
      previousHash := block.hash;
    }
    return Verified;
  }

  /** Two verifying chains with the same last hash carry the same payloads: no block can be changed,
   *  dropped or inserted anywhere below a hash one trusts. */
  lemma {:induction false} LastHashDeterminesChain(a: seq<BlockRecord>, b: seq<BlockRecord>)
    requires Linked(a) && Linked(b) && a != [] && b != []
    requires a[|a| - 1].hash == b[|b| - 1].hash
    ensures |a| == |b| && forall i :: 0 <= i < |a| ==> a[i].payload == b[i].payload && a[i].hash == b[i].hash
    decreases |a|
  {
    var m, n := |a| - 1, |b| - 1;
    assert LinkedAt(a, m) && LinkedAt(b, n);
    assert a[m].payload == b[n].payload;
    assert m > 0 ==> LinkedAt(a, m - 1);
    assert n > 0 ==> LinkedAt(b, n - 1);
    if m > 0 && n > 0 {
      PrefixLinked(a);
      PrefixLinked(b);
      LastHashDeterminesChain(a[..m], b[..n]);
      assert forall i :: 0 <= i < m ==> a[i] == a[..m][i] && b[i] == b[..n][i];
    }
  }

  lemma PrefixLinked(chain: seq<BlockRecord>)
    requires Linked(chain) && chain != []
    ensures Linked(chain[..|chain| - 1])
  {
    var n := |chain| - 1;
    forall i | 0 <= i < n
      ensures LinkedAt(chain[..n], i)
    {
      assert LinkedAt(chain, i);
    }
  }

  /** Verification ignores exactly what the hash ignores. */
  lemma UnhashedFieldsAreFree(chain: seq<BlockRecord>, other: seq<BlockRecord>)
    requires |other| == |chain|
    requires forall i :: 0 <= i < |chain| ==> other[i].payload == chain[i].payload && other[i].hash == chain[i].hash
    ensures Linked(other) <==> Linked(chain)
  {
    forall i | 0 <= i < |chain|
      ensures LinkedAt(other, i) <==> LinkedAt(chain, i)
    {
    }
  }

  /** Under kept hashes a verifying chain admits no other payload: verification ignores nothing else. */
  lemma KeptHashesPinPayloads(chain: seq<BlockRecord>, other: seq<BlockRecord>)
    requires Linked(chain) && |other| == |chain|
    requires forall i :: 0 <= i < |chain| ==> other[i].hash == chain[i].hash
    ensures Linked(other) <==> forall i :: 0 <= i < |chain| ==> other[i].payload == chain[i].payload
  {
    if forall i :: 0 <= i < |chain| ==> other[i].payload == chain[i].payload {
      UnhashedFieldsAreFree(chain, other);
    } else {
      var i :| 0 <= i < |chain| && other[i].payload != chain[i].payload;
      assert LinkedAt(chain, i) && !LinkedAt(other, i);
    }
  }

  // ---------------------------------------------------------------- the forest

  /** Blocks whose parent index is `p`, in increasing order. */
  function ChildrenOf(chain: seq<BlockRecord>, p: nat): (children: seq<nat>)
    ensures forall i :: 0 <= i < |children| ==> children[i] < |chain|
  {
    if chain == [] then []
    else
      var n := |chain| - 1;
      ChildrenOf(chain[..n], p) + if chain[n].payload.parent == Some(p) then [n] else []
  }

  /** Every block lists exactly its children. */
  predicate Forest(chain: seq<BlockRecord>) {
    forall i :: 0 <= i < |chain| ==> ChildrenExact(chain, i)
  }

  predicate ChildrenExact(chain: seq<BlockRecord>, i: nat)
    requires i < |chain|
  {
    chain[i].children == ChildrenOf(chain, i)
  }

  /** Blocks know their position and refer to earlier parents only. */
  predicate Positioned(chain: seq<BlockRecord>) {
    forall i :: 0 <= i < |chain| ==>
      && chain[i].payload.index == i
      && (chain[i].payload.parent.Some? ==> chain[i].payload.parent.value < i)
  }

  /** `ChildrenOf` lists every child once, in order. */
  lemma {:induction false} ChildrenAreExact(chain: seq<BlockRecord>, p: nat)
    ensures forall k: nat :: k in ChildrenOf(chain, p) <==> k < |chain| && chain[k].payload.parent == Some(p)
    ensures forall i, j :: 0 <= i < j < |ChildrenOf(chain, p)| ==> ChildrenOf(chain, p)[i] < ChildrenOf(chain, p)[j]
  {
    if chain != [] {
      var n := |chain| - 1;
      ChildrenAreExact(chain[..n], p);
      var rest := ChildrenOf(chain[..n], p);
      assert forall i :: 0 <= i < |rest| ==> rest[i] in rest;
    }
  }

  /** Only payloads decide children. */
  lemma {:induction false} ChildrenFollowPayloads(a: seq<BlockRecord>, b: seq<BlockRecord>, p: nat)
    requires |a| == |b| && forall i :: 0 <= i < |a| ==> a[i].payload == b[i].payload
    ensures ChildrenOf(a, p) == ChildrenOf(b, p)
  {
    if a != [] {
      ChildrenFollowPayloads(a[..|a| - 1], b[..|b| - 1], p);
    }
  }

  /** No block at or after the end is anyone's parent yet. */
  lemma {:induction false} NoChildrenYet(chain: seq<BlockRecord>, p: nat)
    requires Positioned(chain) && |chain| <= p
    ensures ChildrenOf(chain, p) == []
  {
    if chain != [] {
      NoChildrenYet(chain[..|chain| - 1], p);
    }
  }

  // ---------------------------------------------------------------- what the operations do to the records

  function Genesis(): BlockRecord {
    var payload := Payload(0, "genesis", 0, Zero, None);
    BlockRecord(payload, "completed", [], 0, Sha(payload))
  }

  /** What an `add_block` call appends. */
  datatype Entry = Entry(blockType: string, data: nat, status: string, parent: Option<int>, metadata: nat)

  /** The position a parent index selects; a negative one counts from the end, as list indices do. */
  function ParentAt(length: nat, parent: int): (p: Option<nat>)
    ensures p.Some? ==> p.value < length
  {
    if 0 <= parent < length then Some(parent)
    else if parent < 0 <= length + parent then Some(length + parent)
    else None
  }

  /** The parent exists, or none is named. */
  predicate Addable(length: nat, e: Entry) {
    e.parent.Some? ==> ParentAt(length, e.parent.value).Some?
  }

  function NewRecord(chain: seq<BlockRecord>, e: Entry): BlockRecord
    requires chain != []
  {
    var payload := Payload(|chain|, e.blockType, e.data, chain[|chain| - 1].hash, e.parent);
    BlockRecord(payload, e.status, [], e.metadata, Sha(payload))
  }

  /** The records with one more child noted at the parent's position. */
  function Noted(chain: seq<BlockRecord>, e: Entry): (noted: seq<BlockRecord>)
    requires Addable(|chain|, e)
    ensures |noted| == |chain|
  {
    if e.parent.None? then chain
    else
      var p := ParentAt(|chain|, e.parent.value).value;
      chain[p := chain[p].(children := chain[p].children + [|chain|])]
  }

  /** The parent lists the new block, which is appended after the last one. */
  function Added(chain: seq<BlockRecord>, e: Entry): seq<BlockRecord>
    requires chain != [] && Addable(|chain|, e)
  {
    Noted(chain, e) + [NewRecord(chain, e)]
  }

  function Restatused(chain: seq<BlockRecord>, i: nat, status: string): seq<BlockRecord>
    requires i < |chain|
  {
    chain[i := chain[i].(status := status)]
  }

  predicate Sound(chain: seq<BlockRecord>) {
    chain != [] && Linked(chain) && Positioned(chain)
  }

  lemma GenesisIsSound()
    ensures Sound([Genesis()]) && Forest([Genesis()])
  {
    assert LinkedAt([Genesis()], 0);
    assert ChildrenExact([Genesis()], 0);
  }

  /** Appending keeps the chain verifying, with any parent index the source accepts. */
  lemma AddedIsSound(chain: seq<BlockRecord>, e: Entry)
    requires Sound(chain) && Addable(|chain|, e)
    ensures Sound(Added(chain, e))
  {
    var all := Added(chain, e);
    forall i | 0 <= i < |all|
      ensures LinkedAt(all, i)
    {
      assert i < |chain| ==> LinkedAt(chain, i);
    }
  }

  /** Who gains a child by index, and who is noted to have one. */
  lemma AddedChildren(chain: seq<BlockRecord>, e: Entry, i: nat)
    requires Sound(chain) && Addable(|chain|, e) && i <= |chain|
    ensures ChildrenOf(Added(chain, e), i)
         == (if i < |chain| then ChildrenOf(chain, i) else []) + if e.parent == Some(i) then [|chain|] else []
  {
    var n, all := |chain|, Added(chain, e);
    assert all[..n] == Noted(chain, e) && all[n].payload.parent == e.parent;
    ChildrenFollowPayloads(Noted(chain, e), chain, i);
    if i == n {
      NoChildrenYet(chain, n);
    }
  }

  /** The parent index is the parent's own position. */
  predicate Forward(e: Entry) {
    e.parent.Some? ==> e.parent.value >= 0
  }

  /** One block's children stay as exact, or as wrong, as they were; only a negative parent index makes the
   *  block it selects wrong. */
  lemma AddedExact(chain: seq<BlockRecord>, e: Entry, i: nat)
    requires Sound(chain) && Addable(|chain|, e) && i < |chain|
    ensures ChildrenExact(Added(chain, e), i)
      <==> ChildrenExact(chain, i) && !(!Forward(e) && ParentAt(|chain|, e.parent.value) == Some(i))
  {
    hide ChildrenOf, Linked, Positioned;
    AddedChildren(chain, e, i);
    var n, before, listed := |chain|, ChildrenOf(chain, i), chain[i].children;
    assert (listed + [n])[|listed|] == n && n !in before;
    assert (listed + [n])[..|listed|] == listed && (before + [n])[..|before|] == before;
    assert listed + [n] == before + [n] ==> |listed| == |before|;
  }

  /** Appending keeps the forest exactly when it was exact before and the parent index is not negative. */
  lemma AddedIsForestIff(chain: seq<BlockRecord>, e: Entry)
    requires Sound(chain) && Addable(|chain|, e)
    ensures Forest(Added(chain, e)) <==> Forest(chain) && Forward(e)
  {
    hide ChildrenOf, ChildrenExact, Linked, Positioned;
    var n, all := |chain|, Added(chain, e);
    forall i | 0 <= i < n
      ensures ChildrenExact(all, i)
        <==> ChildrenExact(chain, i) && !(!Forward(e) && ParentAt(n, e.parent.value) == Some(i))
    {
      AddedExact(chain, e, i);
    }
    NewBlockIsLeaf(chain, e);
    assert Forest(all) ==> forall i :: 0 <= i < n ==> ChildrenExact(all, i);
    assert !Forward(e) ==> ParentAt(n, e.parent.value).Some? && 0 <= ParentAt(n, e.parent.value).value < n;
  }

  lemma NewBlockIsLeaf(chain: seq<BlockRecord>, e: Entry)
    requires Sound(chain) && Addable(|chain|, e)
    ensures ChildrenExact(Added(chain, e), |chain|)
  {
    hide ChildrenOf, Linked, Positioned;
    AddedChildren(chain, e, |chain|);
  }

  lemma RestatusedIsSound(chain: seq<BlockRecord>, i: nat, status: string)
    requires Sound(chain) && i < |chain|
    ensures Sound(Restatused(chain, i, status)) && (Forest(Restatused(chain, i, status)) <==> Forest(chain))
  {
    UnhashedFieldsAreFree(chain, Restatused(chain, i, status));
    forall k | 0 <= k < |chain|
      ensures ChildrenExact(Restatused(chain, i, status), k) <==> ChildrenExact(chain, k)
    {
      ChildrenFollowPayloads(chain, Restatused(chain, i, status), k);
    }
  }

  datatype Operation = AddOperation(entry: Entry) | StatusOperation(index: int, newStatus: string)

  /** One operation; an index out of range raises and changes nothing. */
  function Perform(chain: seq<BlockRecord>, o: Operation): (next: seq<BlockRecord>)
    requires chain != []
    ensures |next| >= |chain|
  {
    match o
    case AddOperation(e) => if Addable(|chain|, e) then Added(chain, e) else chain
    case StatusOperation(index, newStatus) =>
      if 0 <= index < |chain| then Restatused(chain, index, newStatus) else chain
  }

  function PerformAll(chain: seq<BlockRecord>, operations: seq<Operation>): (all: seq<BlockRecord>)
    requires chain != []
    ensures |all| >= |chain|
    decreases |operations|
  {
    if operations == [] then chain else PerformAll(Perform(chain, operations[0]), operations[1..])
  }

  /** How many blocks the chain has after one operation. */
  function Grown(length: nat, o: Operation): nat {
    if o.AddOperation? && Addable(length, o.entry) then length + 1 else length
  }

  /** No block is added under a negative index that selects a parent. */
  predicate AllForward(length: nat, operations: seq<Operation>)
    decreases |operations|
  {
    operations == []
    || (&& (operations[0].AddOperation? && Addable(length, operations[0].entry) ==> Forward(operations[0].entry))
        && AllForward(Grown(length, operations[0]), operations[1..]))
  }

  lemma PerformKeepsLedger(chain: seq<BlockRecord>, o: Operation)
    requires Sound(chain)
    ensures var next := Perform(chain, o);
      && Sound(next)
      && |next| == Grown(|chain|, o)
      && (Forest(next) <==> Forest(chain) && (o.AddOperation? && Addable(|chain|, o.entry) ==> Forward(o.entry)))
      && forall i :: 0 <= i < |chain| ==> next[i].payload == chain[i].payload && next[i].hash == chain[i].hash
  {
    hide Linked, Positioned, Forest;
    match o {
      case AddOperation(e) =>
        if Addable(|chain|, e) {
          AddedIsSound(chain, e);
          AddedIsForestIff(chain, e);
        }
      case StatusOperation(index, newStatus) =>
        if 0 <= index < |chain| {
          RestatusedIsSound(chain, index, newStatus);
        }
    }
  }

  /** Any sequence of operations leaves a verifying chain and rewrites no payload and no hash that was there
   *  before; the forest stays exact if and only if no block was added under a negative parent index. */
  lemma {:induction false} OperationsKeepLedger(chain: seq<BlockRecord>, operations: seq<Operation>)
    requires Sound(chain)
    ensures Sound(PerformAll(chain, operations))
    ensures forall i :: 0 <= i < |chain| ==>
      && PerformAll(chain, operations)[i].payload == chain[i].payload
      && PerformAll(chain, operations)[i].hash == chain[i].hash
    ensures Forest(PerformAll(chain, operations)) <==> Forest(chain) && AllForward(|chain|, operations)
    decreases |operations|
  {
    hide Linked, Positioned, Forest, Perform, Forward;
    if operations != [] {
      PerformKeepsLedger(chain, operations[0]);
      OperationsKeepLedger(Perform(chain, operations[0]), operations[1..]);
    }
  }

  /** From the genesis block on, every ledger verifies, and its forest is exact if and only if no block was
   *  added under a negative parent index. */
  lemma LedgerFromGenesis(operations: seq<Operation>)
    ensures Linked(PerformAll([Genesis()], operations))
    ensures Forest(PerformAll([Genesis()], operations)) <==> AllForward(1, operations)
  {
    GenesisIsSound();
    OperationsKeepLedger([Genesis()], operations);
  }

  // ---------------------------------------------------------------- the objects

  class Block {
    const payload: Payload
    var status: string
    var children: seq<nat>
    const metadata: nat
    const hash: Link

    constructor (payload: Payload, status: string, children: seq<nat>, metadata: nat, hash: Option<Link>)
      ensures this.payload == payload && this.metadata == metadata
      ensures this.status == status && this.children == children
      ensures this.hash == if hash.Some? then hash.value else Sha(payload)
    {
      this.payload, this.status, this.children, this.metadata := payload, status, children, metadata;
      this.hash := if hash.Some? then hash.value else Sha(payload);
    }

    function ToRecord(): BlockRecord
      reads this
    {
      BlockRecord(payload, status, children, metadata, hash)
    }
  }

  class Blockchain {
    var chain: seq<Block>
    var saved: seq<BlockRecord>

    function Records(): seq<BlockRecord>
      reads this, chain
    {
      seq(|chain|, i requires 0 <= i < |chain| reads this, chain => chain[i].ToRecord())
    }

    /** Blocks are distinct objects, and storage holds what memory holds. */
    ghost predicate Valid()
      reads this, chain
    {
      && chain != []
      && (forall i, j :: 0 <= i < j < |chain| ==> chain[i] != chain[j])
      && saved == Records()
    }

    /** Rebuild the chain from storage, or start one at the genesis block. */
    constructor (records: seq<BlockRecord>)
      ensures Valid() && fresh(chain)
      ensures Records() == if records != [] then records else [Genesis()]
      ensures records == [] ==>
        var payload := Payload(0, "genesis", 0, Zero, None);
        Records() == [BlockRecord(payload, "completed", [], 0, Sha(payload))]
    {
      chain, saved := [], records;
      new;
      for i := 0 to |records|
        invariant |chain| == i && saved == records && fresh(chain)
        invariant forall j, k :: 0 <= j < k < i ==> chain[j] != chain[k]
        invariant forall j :: 0 <= j < i ==> chain[j].ToRecord() == records[j]
      {
        var r := records[i];
        var block := new Block(r.payload, r.status, r.children, r.metadata, Some(r.hash));
        chain := chain + [block];
      }
      if records == [] {
        var genesis := new Block(Genesis().payload, "completed", [], 0, None);
        chain := [genesis];
        saved := Records();
      }
    }

    /** Append a block; a parent that does not exist raises before anything changes. */
    method AddBlock(e: Entry) returns (added: bool)
      requires Valid()
      modifies this, chain
      ensures Valid()
      ensures added <==> (e.parent.Some? ==> -|old(chain)| <= e.parent.value < |old(chain)|)
      ensures !added ==> Records() == old(Records())
      ensures added ==>
        var n := |old(chain)|;
        && |Records()| == n + 1
        && (var payload := Payload(n, e.blockType, e.data, old(Records())[n - 1].hash, e.parent);
            Records()[n] == BlockRecord(payload, e.status, [], e.metadata, Sha(payload)))
        && forall i :: 0 <= i < n ==>
             Records()[i] == if e.parent.Some? && (e.parent.value == i || e.parent.value + n == i) then
                               old(Records())[i].(children := old(Records())[i].children + [n])
                             else old(Records())[i]
      ensures Records() == if added then Added(old(Records()), e) else old(Records())
      ensures old(chain) <= chain && fresh(chain[|old(chain)|..])
    {
      ghost var before := Records();
      var payload := Payload(|chain|, e.blockType, e.data, chain[|chain| - 1].hash, e.parent);
      var block := new Block(payload, e.status, [], e.metadata, None);
      if e.parent.Some? {
        var at := ParentAt(|chain|, e.parent.value);
        if at.None? {
          return false;
        }
        var parentBlock := chain[at.value];
        parentBlock.children := parentBlock.children + [payload.index];
      }
      chain := chain + [block];
      saved := Records();
      added := true;
      assert Records() == Added(before, e);
    }

    /** Overwrite a block's status in place; an unknown index raises. */
    method UpdateTaskStatus(index: int, status: string) returns (updated: bool)
      requires Valid()
      modifies this, chain
      ensures Valid() && chain == old(chain)
      ensures updated == (0 <= index < |chain|)
      ensures |Records()| == |old(Records())|
      ensures forall i :: 0 <= i < |Records()| ==>
        Records()[i] == if i == index then old(Records())[i].(status := status) else old(Records())[i]
      ensures Records() == if updated then Restatused(old(Records()), index, status) else old(Records())
    {
      ghost var before := Records();
      if index < 0 || index >= |chain| {
        return false;
      }
      var block := chain[index];
      block.status := status;
      saved := Records();
      updated := true;
      assert Records() == Restatused(before, index, status);
    }
  }
}
