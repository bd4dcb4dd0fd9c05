/** What the history validator lets through although no controller writes it, and the exact condition
 *  under which the controllers' laws hold of an accepted history nevertheless. */
module HistoryLimits {
  import opened Wrappers
  import opened AssemblyContracts
  import opened AssemblyTransitions
  import opened HistoryValidation
  import opened HistoryLaws
  import opened ControllerRuns

  // ---------------------------------------------------------------- early finishes

  /** The receipt ends where its allowance does. */
  predicate RanAllowance(r: AdvanceReceipt) {
    r.end == TargetOf(r.start, r.maximum)
  }

  /** The advance is closed although its allowance would reach further. */
  predicate FinishesEarly(prior: Checkpoint, current: Checkpoint) {
    && prior.active.Some? && current.active.None?
    && prior.completed < TargetOf(prior.active.value.start, prior.active.value.maximum)
  }

  predicate AllRan(receipts: seq<AdvanceReceipt>) {
    forall i :: 0 <= i < |receipts| ==> RanAllowance(receipts[i])
  }

  lemma RanStep(prior: Record, current: Record)
    requires ValidCheckpoint(prior.checkpoint) && ValidCheckpoint(current.checkpoint)
    requires TransitionAccepted(prior, current)
    ensures AllRan(current.checkpoint.receipts) <==>
      AllRan(prior.checkpoint.receipts) && !FinishesEarly(prior.checkpoint, current.checkpoint)
  {
    hide AuthorityAccepted, OneOutcomeMore, SliceFor, SameAuthority, ValidSubmit, ValidItem, ValidOutcome;
    var before, after := prior.checkpoint, current.checkpoint;
    if after.receipts != before.receipts {
      assert after.receipts == before.receipts + [after.receipts[|before.receipts|]];
    }
  }

  ghost predicate NoEarlyFinish(h: seq<Record>) {
    forall i :: 0 < i < |h| ==> !FinishesEarly(h[i - 1].checkpoint, h[i].checkpoint)
  }

  lemma {:induction false} RanUpTo(a: Uuid, h: seq<Record>, n: nat)
    requires AcceptedHistory(a, h) && n < |h|
    ensures AllRan(h[n].checkpoint.receipts) <==>
      && AllRan(h[0].checkpoint.receipts)
      && forall i :: 0 < i <= n ==> !FinishesEarly(h[i - 1].checkpoint, h[i].checkpoint)
  {
    hide AcceptedHistory, ValidCheckpoint, TransitionAccepted, RecordAccepted, FinishesEarly, AllRan;
    AcceptedStep(a, h, n);
    if n > 0 {
      RanUpTo(a, h, n - 1);
      RanStep(h[n - 1], h[n]);
    }
  }

  /** All receipts that an accepted history adds to its first record ran their whole allowance exactly
   *  when no advance was finished early; the validator checks neither. */
  lemma ReceiptsRanIffNoEarlyFinish(a: Uuid, h: seq<Record>)
    requires AcceptedHistory(a, h)
    ensures AllRan(h[|h| - 1].checkpoint.receipts) <==> AllRan(h[0].checkpoint.receipts) && NoEarlyFinish(h)
  {
    hide AcceptedAt, Decoded, FirstAccepted, FinishesEarly, AllRan;
    RanUpTo(a, h, |h| - 1);
  }

  // ---------------------------------------------------------------- concrete histories

  function SampleInput(k: nat): InputRequest {
    var name := if k == 0 then "a" else if k == 1 then "b" else "c";
    InputRequest(name, name + "/TO_BE_BUILT.md", k, Reservation(k, 7, name, 2.0))
  }

  const SAMPLE := SubmitRequest(7, 1, 6.0, [SampleInput(0), SampleInput(1), SampleInput(2)])

  function SampleAdmitted(k: nat): AdmittedInput {
    var pattern := if k == 0 then Sequential else if k == 1 then SelectorGroupChat else Swarm;
    AdmittedInput(SampleInput(k).repositoryPath,
                  CanonicalInput(SampleInput(k).inputId, pattern, ArtifactRef(Location(k), Raw(k), false), 0))
  }

  function SampleItem(k: nat): ItemState {
    ItemState(SampleInput(k), SampleAdmitted(k), [], None, None, None, None, None, None)
  }

  const SAMPLE_START := Checkpoint(
    7, SAMPLE, OfRequest(SAMPLE), 1, Admitted, 0, [SampleItem(0), SampleItem(1), SampleItem(2)],
    None, [], None, None, None, None, None, [])

  const SAMPLE_ACTIVE := ActiveAdvance(9, OfRequest(SAMPLE), 1, 0, 1)

  /** The first record may already hold a claim. */
  const SAMPLE_HELD := SAMPLE_START.(active := Some(SAMPLE_ACTIVE))

  const SAMPLE_CLAIMED := SAMPLE_START.(revision := 2, status := Advancing, active := Some(SAMPLE_ACTIVE))

  /** The claim is closed before its slice ran. */
  const SAMPLE_CLOSED := SAMPLE_START.(
    revision := 3, status := Advancing,
    receipts := [AdvanceReceipt(7, 9, OfRequest(SAMPLE), 1, 0, 0, 0, Advancing)])

  lemma SamplePartsAreValid()
    ensures ValidSubmit(SAMPLE) && ValidItem(SampleItem(0)) && ValidItem(SampleItem(1)) && ValidItem(SampleItem(2))
  {
    var a, b, c := SampleInput(0), SampleInput(1), SampleInput(2);
    assert a.inputId[0] != b.inputId[0] && a.inputId[0] != c.inputId[0] && b.inputId[0] != c.inputId[0];
    assert a.repositoryPath[0] == a.inputId[0] && b.repositoryPath[0] == b.inputId[0];
    assert c.repositoryPath[0] == c.inputId[0];
    assert DistinctInputs(a, b) && DistinctInputs(a, c) && DistinctInputs(b, c);
  }

  /** Variants of the sample that only differ in their bookkeeping. */
  lemma SampleVariant(c: Checkpoint)
    requires c == SAMPLE_START.(revision := c.revision, status := c.status, active := c.active, receipts := c.receipts)
    requires c.revision >= 1 && c.status != ReadyToUse && c.active in {None, Some(SAMPLE_ACTIVE)}
    requires c.receipts == [] || c.receipts == SAMPLE_CLOSED.receipts
    ensures ValidCheckpoint(c) && ShapeAccepted(c)
  {
    hide ValidSubmit, ValidItem;
    SamplePartsAreValid();
  }

  lemma SamplesAreValid()
    ensures ValidCheckpoint(SAMPLE_START) && ShapeAccepted(SAMPLE_START)
    ensures ValidCheckpoint(SAMPLE_HELD) && ShapeAccepted(SAMPLE_HELD)
    ensures ValidCheckpoint(SAMPLE_CLAIMED) && ShapeAccepted(SAMPLE_CLAIMED)
    ensures ValidCheckpoint(SAMPLE_CLOSED) && ShapeAccepted(SAMPLE_CLOSED)
  {
    hide ValidCheckpoint, ShapeAccepted;
    SampleVariant(SAMPLE_START);
    SampleVariant(SAMPLE_HELD);
    SampleVariant(SAMPLE_CLAIMED);
    SampleVariant(SAMPLE_CLOSED);
  }

  /** An accepted history whose revisions do not add up: it starts with a claim. */
  lemma AccountingNeedsWeightlessStart()
    ensures AcceptedHistory(7, [RecordOf(SAMPLE_HELD)])
    ensures SAMPLE_HELD.revision != 1 + Weight(SAMPLE_HELD)
  {
    hide ValidCheckpoint, ShapeAccepted;
    SamplesAreValid();
    assert AcceptedAt(7, [RecordOf(SAMPLE_HELD)], 0);
  }

  /** An accepted history with a receipt that ran nothing of its allowance. */
  lemma EarlyFinishIsAccepted()
    ensures var h := [RecordOf(SAMPLE_START), RecordOf(SAMPLE_CLAIMED), RecordOf(SAMPLE_CLOSED)];
      AcceptedHistory(7, h) && CleanStart(h[0].checkpoint) && !AllRan(h[2].checkpoint.receipts)
  {
    hide ValidCheckpoint, ShapeAccepted;
    SamplesAreValid();
    var h := [RecordOf(SAMPLE_START), RecordOf(SAMPLE_CLAIMED), RecordOf(SAMPLE_CLOSED)];
    assert AcceptedAt(7, h, 0) && AcceptedAt(7, h, 1) && AcceptedAt(7, h, 2);
    assert !RanAllowance(h[2].checkpoint.receipts[0]);
  }
}
