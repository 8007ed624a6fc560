/** Which states an observer starts from and lets through, field by field. */
module TransitionLaws {
  import opened Names
  import opened RunState
  import opened Contracts
  import opened Observers
  import opened PrimaryOutcome

  /** From a submitted part there are three outcomes: nothing, one part more,
      or a failed run; only the status, the time stamp and, in the second, the
      count of completed parts change. */
  lemma OutcomesExactly(before: State, after: State)
    ensures NextTransition(before, after) <==>
      && before.status == AdjudicationSubmitted
      && (|| after == before
          || after == before.(status := Failed, updatedAt := after.updatedAt)
          || after == before.(status := AdjudicationPartCompleted, updatedAt := after.updatedAt,
                              adjudicationCompleted := before.adjudicationCompleted + 1))
  {
    if NextTransition(before, after) && after != before {
      assert after == before.(status := after.status, updatedAt := after.updatedAt,
                              adjudicationCompleted := after.adjudicationCompleted);
    }
  }

  /** The state an observer starts from, every other value of a field it looks
      at is refused. */
  lemma CheckpointRefusals(st: State, s: Status, k: nat, parts: nat, id: Option<string>, ids: seq<string>)
    requires NextCheckpoint(st)
    ensures NextCheckpoint(st.(status := s)) <==> s == AdjudicationSubmitted
    ensures NextCheckpoint(st.(adjudicationCompleted := k)) <==> k == st.adjudicationCompleted
    ensures NextCheckpoint(st.(adjudicationParts := parts)) <==> parts > st.adjudicationCompleted
    ensures NextCheckpoint(st.(batchId := id)) <==> id == Some(st.batchIds[st.adjudicationCompleted])
    ensures NextCheckpoint(st.(inputId := id)) <==> id == Some(st.inputIds[st.adjudicationCompleted])
    ensures NextCheckpoint(st.(batchIds := ids)) <==>
      |ids| == st.adjudicationCompleted + 1 && Some(ids[st.adjudicationCompleted]) == st.batchId
    ensures NextCheckpoint(st.(inputIds := ids)) <==>
      |ids| == st.adjudicationCompleted + 1 && Some(ids[st.adjudicationCompleted]) == st.inputId
    ensures st.adjudicationCompleted > 0
  {
  }

  lemma FirstCheckpointRefusals(st: State, s: Status, k: nat, parts: nat, id: Option<string>, ids: seq<string>)
    requires FirstCheckpoint(st)
    ensures FirstCheckpoint(st.(status := s)) <==> s == AdjudicationSubmitted
    ensures FirstCheckpoint(st.(adjudicationCompleted := k)) <==> k == 0
    ensures FirstCheckpoint(st.(adjudicationParts := parts)) <==> parts > 0
    ensures FirstCheckpoint(st.(batchId := id)) <==> id == Some(st.batchIds[0])
    ensures FirstCheckpoint(st.(inputId := id)) <==> id == Some(st.inputIds[0])
    ensures FirstCheckpoint(st.(batchIds := ids)) <==> |ids| == 1 && Some(ids[0]) == st.batchId
    ensures FirstCheckpoint(st.(inputIds := ids)) <==> |ids| == 1 && Some(ids[0]) == st.inputId
  {
  }

  /** What a call of the primary-result worker may change in the state: status,
      time stamp, the primary cost, what was accepted by consensus, how many
      adjudication parts there are and who needs a human; nothing else. */
  lemma PrimaryTransitionExactly(a: State, b: State)
    ensures Transition(a, b) <==>
      && b.status in {AdjudicationPrepared, Done}
      && b.runId == a.runId && b.candidateCount == a.candidateCount
      && b.estimatedPrimaryCost == a.estimatedPrimaryCost && b.actualAdjudicationCost == a.actualAdjudicationCost
      && b.primaryParts == a.primaryParts && b.primaryCompleted == a.primaryCompleted
      && b.primaryBatchIds == a.primaryBatchIds && b.primaryInputIds == a.primaryInputIds
      && b.adjudicationCompleted == a.adjudicationCompleted
      && b.batchId == a.batchId && b.inputId == a.inputId && b.batchIds == a.batchIds && b.inputIds == a.inputIds
      && b.finalReviewParts == a.finalReviewParts && b.acceptedByAdjudication == a.acceptedByAdjudication
      && b.settings == a.settings
  {
  }

  // ---------------------------------------------------------------- reports

  /** Every number of an observer's report under its own name. */
  lemma ObservationReportNames(st: State, status: Reply, estimate: int)
    requires ObservationReport(st, status, estimate).Some?
    ensures var r := ObservationReport(st, status, estimate).value;
      && r.runStatus == st.status && r.status == status
      && r.primaryCost as real == st.actualPrimaryCost * 1000000.0 && r.estimate == estimate
      && r.completed == st.adjudicationCompleted && r.parts == st.adjudicationParts
  {
  }

  lemma PrimaryReportNames(st: State, status: Reply)
    ensures var r := PrimaryReport(st, status);
      && r.runStatus == st.status && r.status == status
      && r.consensus == st.acceptedByConsensus && r.needsHuman == st.needsHuman && r.candidates == st.candidateCount
      && r.primaryParts == st.primaryParts && r.primaryCompleted == st.primaryCompleted
      && r.adjudicationParts == st.adjudicationParts
  {
  }

  /** The reply of an observation: failed, observed or still waiting. */
  lemma ObservedReplies(before: State, after: State)
    requires NextTransition(before, after)
    ensures ObservedReply(before, after) == FailedReply <==> after.status == Failed
    ensures ObservedReply(before, after) == Observed <==> after.status == AdjudicationPartCompleted
    ensures ObservedReply(before, after) == Waiting <==> after.status == AdjudicationSubmitted
  {
  }

  // -------------------------------------------------------------- contracts

  /** The observation contract as a table: reply, run status, completed parts
      at the least. */
  lemma ObservationContract(v: Observation)
    ensures ValidObservation(v) <==>
      && 0 <= v.primaryCost <= 5_000_000 && 0 <= v.estimate <= 5_000_000 && v.completed <= v.parts
      && (|| (v.status == Waiting && v.runStatus == AdjudicationSubmitted && v.completed >= 1)
          || (v.status == Reconcile && v.runStatus == AdjudicationSubmitted && v.completed >= 1)
          || (v.status == FailedReply && v.runStatus == RunState.Failed && v.completed >= 1)
          || (v.status == Observed && v.runStatus == AdjudicationPartCompleted && v.completed >= 2)
          || (v.status == AlreadyObserved && v.runStatus == AdjudicationPartCompleted && v.completed >= 2))
  {
  }

  /** The submission contract: reply, run status, batches submitted. */
  lemma SubmissionContract(v: SubmissionReport)
    ensures ValidSubmission(v) <==>
      && 0 <= v.primaryCost <= 5_000_000 && 0 <= v.estimate <= 5_000_000 && 1 <= v.completed < v.parts
      && (|| (v.status == Submitted && v.runStatus == AdjudicationSubmitted && v.submitted == 1)
          || (v.status == AlreadySubmitted && v.runStatus == AdjudicationSubmitted && v.submitted == 1)
          || (v.status == Reconcile && v.runStatus == AdjudicationSubmitted && v.submitted == 0)
          || (v.status == Reconcile && v.runStatus == AdjudicationPartCompleted && v.submitted == 0))
  {
  }

  /** The two outcomes of primary processing: prepared with parts and something
      left to adjudicate, or completed with everything accepted. */
  lemma PrimaryContract(v: PrimaryAggregate)
    ensures ValidPrimary(v) <==>
      && v.candidates >= 1 && v.primaryParts >= 1 && v.primaryCompleted == v.primaryParts && v.needsHuman == 0
      && (|| (v.runStatus == AdjudicationPrepared && v.status in {PreparedReply, AlreadyProcessed}
              && v.adjudicationParts >= 1 && 0 <= v.consensus < v.candidates)
          || (v.runStatus == Done && v.status in {CompletedReply, AlreadyProcessed}
              && v.adjudicationParts == 0 && v.consensus == v.candidates))
  {
  }

  /** The two outcomes of adjudication processing: a final review for some of
      those who need a human, or completed with none; the three counts add up
      to the candidates, the two costs stay within the ceiling. */
  lemma ProcessingContract(v: Processing)
    ensures ValidProcessing(v) <==>
      && v.candidates >= 1 && v.primaryParts >= 1 && v.primaryCompleted == v.primaryParts
      && v.adjudicationParts >= 1 && v.adjudicationCompleted == v.adjudicationParts
      && 0 <= v.consensus && 0 <= v.adjudicated && 0 <= v.needsHuman
      && v.candidates == v.consensus + v.adjudicated + v.needsHuman
      && 0 <= v.primaryCost && 0 <= v.adjudicationCost
      && v.primaryCost + v.adjudicationCost <= v.ceiling && 1 <= v.ceiling <= 5_000_000
      && (|| (v.runStatus == FinalReviewPrepared && v.status in {PreparedReply, AlreadyProcessed}
              && 1 <= v.finalParts <= v.needsHuman)
          || (v.runStatus == Done && v.status in {CompletedReply, AlreadyProcessed} && v.finalParts == 0 && v.needsHuman == 0))
  {
  }
}
