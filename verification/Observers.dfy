/** The observers: which checkpoints they start from and which state changes
    they let pass.  Five were written, one for the primary stage and four for
    adjudication, of which one is generic. */
module Observers {
  import opened Names
  import opened Lists
  import opened RunState
  import opened Costs
  import opened Contracts

  predicate LastIs(id: Option<string>, ids: seq<string>) {
    |ids| > 0 && id == Some(ids[|ids| - 1])
  }

  // ------------------------------------------------------------- checkpoints

  predicate FirstCheckpoint(st: State) {
    && st.status == AdjudicationSubmitted
    && st.adjudicationCompleted == 0 && st.adjudicationParts > 0
    && |st.batchIds| == 1 && |st.inputIds| == 1
    && st.batchId == Some(st.batchIds[0]) && st.inputId == Some(st.inputIds[0])
  }

  predicate NextCheckpoint(st: State) {
    && st.status == AdjudicationSubmitted
    && 0 < st.adjudicationCompleted < st.adjudicationParts
    && |st.batchIds| == st.adjudicationCompleted + 1 && |st.inputIds| == st.adjudicationCompleted + 1
    && LastIs(st.batchId, st.batchIds) && LastIs(st.inputId, st.inputIds)
  }

  /** What the generic observer asks of the state it replays. */
  predicate NextReplay(st: State) {
    && st.status == AdjudicationPartCompleted
    && 1 < st.adjudicationCompleted <= st.adjudicationParts
    && |st.batchIds| == st.adjudicationCompleted && |st.inputIds| == st.adjudicationCompleted
    && LastIs(st.batchId, st.batchIds) && LastIs(st.inputId, st.inputIds)
  }

  /** The third and fourth observers, pinned at `k` completed parts. */
  predicate PinnedCheckpoint(st: State, k: nat) {
    && st.status == AdjudicationSubmitted
    && st.adjudicationCompleted == k
    && st.adjudicationParts > 0 && st.adjudicationParts >= k + 1
    && st.adjudicationCompleted < st.adjudicationParts
    && |st.batchIds| == k + 1 && |st.inputIds| == k + 1
    && LastIs(st.batchId, st.batchIds) && LastIs(st.inputId, st.inputIds)
  }

  predicate ThirdCheckpoint(st: State) { PinnedCheckpoint(st, 2) }

  /** The fourth also demands distinct provider identifiers. */
  predicate FourthCheckpoint(st: State) {
    && PinnedCheckpoint(st, 3)
    && |ToSet(st.batchIds)| == 4 && |ToSet(st.inputIds)| == 4
  }

  // ------------------------------------------------------------- transitions

  predicate NextTransition(before: State, after: State) {
    match after.status
    case AdjudicationPartCompleted =>
      && before.status == AdjudicationSubmitted
      && after.adjudicationCompleted == before.adjudicationCompleted + 1
      && after == before.(status := after.status, updatedAt := after.updatedAt,
                          adjudicationCompleted := after.adjudicationCompleted)
    case Failed =>
      && before.status == AdjudicationSubmitted
      && after.adjudicationCompleted == before.adjudicationCompleted
      && after == before.(status := after.status, updatedAt := after.updatedAt)
    case AdjudicationSubmitted =>
      before.status == AdjudicationSubmitted && after == before
    case _ => false
  }

  predicate FirstTransition(before: State, after: State) {
    match after.status
    case AdjudicationPartCompleted =>
      && before.status == AdjudicationSubmitted
      && after.adjudicationCompleted == 1
      && after == before.(status := after.status, updatedAt := after.updatedAt,
                          adjudicationCompleted := after.adjudicationCompleted)
    case Failed =>
      && before.status == AdjudicationSubmitted
      && after.adjudicationCompleted == 0
      && after == before.(status := after.status, updatedAt := after.updatedAt)
    case AdjudicationSubmitted =>
      before.status == AdjudicationSubmitted && after == before
    case _ => false
  }

  predicate PinnedTransition(before: State, after: State, k: nat) {
    match after.status
    case AdjudicationPartCompleted =>
      && before.status == AdjudicationSubmitted
      && before.adjudicationCompleted == k && after.adjudicationCompleted == k + 1
      && after == before.(status := after.status, updatedAt := after.updatedAt,
                          adjudicationCompleted := after.adjudicationCompleted)
    case Failed =>
      && before.status == AdjudicationSubmitted
      && before.adjudicationCompleted == k && after.adjudicationCompleted == before.adjudicationCompleted
      && after == before.(status := after.status, updatedAt := after.updatedAt)
    case AdjudicationSubmitted =>
      && before.status == AdjudicationSubmitted && before.adjudicationCompleted == k && after == before
    case _ => false
  }

  /** The first observer's rule is the generic rule exactly from a checkpoint
      with nothing completed; from any other it differs on some outcome. */
  lemma FirstTransitionIsNextAtZero(before: State)
    requires before.status == AdjudicationSubmitted
    ensures (forall after :: FirstTransition(before, after) <==> NextTransition(before, after))
            <==> before.adjudicationCompleted == 0
  {
    if before.adjudicationCompleted != 0 {
      var after := before.(status := Failed);
      assert NextTransition(before, after) && !FirstTransition(before, after);
    }
  }

  /** The pinned observers are the generic one restricted to one part, in the
      checkpoint and in the transition; the fourth adds distinct identifiers. */
  lemma PinnedIsNextRestricted(before: State, after: State, k: nat)
    requires k >= 1
    ensures PinnedCheckpoint(before, k) <==> NextCheckpoint(before) && before.adjudicationCompleted == k
    ensures PinnedTransition(before, after, k) <==> NextTransition(before, after) && before.adjudicationCompleted == k
  {
  }

  // --------------------------------------------------- the primary stage's own

  predicate PrimaryTransition(before: State, after: State) {
    match after.status
    case PrimaryPartCompleted =>
      && before.status == PrimarySubmitted
      && after.primaryCompleted == before.primaryCompleted + 1
      && after == before.(status := after.status, updatedAt := after.updatedAt, primaryCompleted := after.primaryCompleted)
    case Failed =>
      && before.status == PrimarySubmitted
      && after.primaryCompleted == before.primaryCompleted
      && after == before.(status := after.status, updatedAt := after.updatedAt)
    case PrimarySubmitted =>
      before.status == PrimarySubmitted && after == before
    case _ => false
  }

  function ExchangeStatus(s: Status): Status {
    match s
    case PrimarySubmitted => AdjudicationSubmitted
    case AdjudicationSubmitted => PrimarySubmitted
    case PrimaryPartCompleted => AdjudicationPartCompleted
    case AdjudicationPartCompleted => PrimaryPartCompleted
    case _ => s
  }

  /** The two stages trade their status names and completed counts. */
  function Exchange(st: State): State {
    st.(status := ExchangeStatus(st.status),
        primaryCompleted := st.adjudicationCompleted, adjudicationCompleted := st.primaryCompleted)
  }

  /** The primary observer's separately written check is the generic one with
      the stages exchanged, for every pair of states. */
  lemma PrimaryTransitionIsExchanged(before: State, after: State)
    ensures PrimaryTransition(before, after) <==> NextTransition(Exchange(before), Exchange(after))
  {
    assert Exchange(Exchange(before)) == before && Exchange(Exchange(after)) == after;
  }

  lemma FourthIsNextRestricted(st: State)
    ensures FourthCheckpoint(st) <==>
      NextCheckpoint(st) && st.adjudicationCompleted == 3 && Distinct(st.batchIds) && Distinct(st.inputIds)
  {
    PinnedIsNextRestricted(st, st, 3);
    SizeOfSet(st.batchIds);
    SizeOfSet(st.inputIds);
  }

  // ---------------------------------------------------------- worker replies

  function ObservedReply(before: State, after: State): Reply {
    if after.status == Failed then FailedReply else if after != before then Observed else Waiting
  }

  function ObservationReport(st: State, status: Reply, estimate: int): Option<Observation> {
    var cost := ExactMicros(st.actualPrimaryCost);
    if cost.None? then None else
    Some(Observation(st.status, status, cost.value, estimate, st.adjudicationCompleted, st.adjudicationParts))
  }

  /** Worker and contract agree: from an accepted checkpoint with costs in
      range, every transition the worker lets pass, and the reconciliation
      reply, yield a report the wire contract accepts.  A completed part can be
      replayed, and so reported again. */
  lemma AcceptedObservationIsReportable(before: State, after: State, estimate: int)
    requires NextCheckpoint(before) && NextTransition(before, after)
    requires ExactMicros(before.actualPrimaryCost).Some? && 0 <= estimate <= CAP
    ensures var report := ObservationReport(after, ObservedReply(before, after), estimate);
      report.Some? && ValidObservation(report.value)
    ensures var report := ObservationReport(before, Reconcile, estimate);
      report.Some? && ValidObservation(report.value)
    ensures after.status == AdjudicationPartCompleted ==>
      var report := ObservationReport(after, AlreadyObserved, estimate);
      NextReplay(after) && report.Some? && ValidObservation(report.value)
  {
  }

  /** Only the workflow's own check of a replayed state makes the repeated
      report acceptable: after part one it would not be. */
  lemma ReplayedObservationIsReportable(st: State, estimate: int)
    requires ExactMicros(st.actualPrimaryCost).Some? && 0 <= estimate <= CAP
    requires st.status == AdjudicationPartCompleted && st.adjudicationCompleted <= st.adjudicationParts
    ensures ValidObservation(ObservationReport(st, AlreadyObserved, estimate).value) <==> st.adjudicationCompleted > 1
    ensures NextReplay(st) ==> ValidObservation(ObservationReport(st, AlreadyObserved, estimate).value)
  {
  }

  /** And the report tells the outcome: from one checkpoint, two accepted
      outcomes with equal reports differ at most in their time stamp. */
  lemma ReportTellsTheOutcome(before: State, a: State, b: State, estimate: int)
    requires NextTransition(before, a) && NextTransition(before, b)
    requires ExactMicros(before.actualPrimaryCost).Some?
    requires ObservationReport(a, ObservedReply(before, a), estimate) == ObservationReport(b, ObservedReply(before, b), estimate)
    ensures a == b.(updatedAt := a.updatedAt)
  {
  }
}
