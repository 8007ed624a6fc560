/** The aggregates the workers report, and what the wire contracts accept. */
module Contracts {
  import opened Names
  import opened RunState
  import opened Costs

  datatype Reply =
    | Waiting | Observed | AlreadyObserved | FailedReply | Reconcile
    | Submitted | AlreadySubmitted
    | PreparedReply | CompletedReply | AlreadyProcessed

  // ------------------------------------------------ next-part observation

  datatype Observation = Observation(
    runStatus: Status, status: Reply, primaryCost: int, estimate: int, completed: int, parts: int)

  predicate ValidObservation(v: Observation) {
    && v.status in {Waiting, Observed, AlreadyObserved, FailedReply, Reconcile}
    && v.runStatus in {AdjudicationSubmitted, AdjudicationPartCompleted, Failed}
    && 0 <= v.primaryCost <= CAP && 0 <= v.estimate <= CAP
    && 0 <= v.completed <= v.parts && 0 < v.parts
    && (v.status in {Waiting, Reconcile, FailedReply} ==> v.completed > 0)
    && (v.status in {Observed, AlreadyObserved} ==> v.completed > 1)
    && (v.status in {Waiting, Reconcile} ==> v.runStatus == AdjudicationSubmitted)
    && (v.status in {Observed, AlreadyObserved} ==> v.runStatus == AdjudicationPartCompleted)
    && (v.status == FailedReply ==> v.runStatus == Failed)
  }

  // ------------------------------------------------ next-part submission

  datatype SubmissionReport = SubmissionReport(
    runStatus: Status, status: Reply, primaryCost: int, estimate: int,
    completed: int, parts: int, submitted: int)

  predicate ValidSubmission(v: SubmissionReport) {
    && v.status in {Submitted, AlreadySubmitted, Reconcile}
    && v.runStatus in {AdjudicationPartCompleted, AdjudicationSubmitted}
    && 0 <= v.primaryCost <= CAP && 0 <= v.estimate <= CAP
    && 0 < v.completed < v.parts
    && v.submitted in {0, 1}
    && (v.status in {Submitted, AlreadySubmitted} ==> v.submitted == 1 && v.runStatus == AdjudicationSubmitted)
    && (v.status == Reconcile ==> v.submitted == 0)
  }

  // ---------------------------------------------------- primary processing

  datatype PrimaryAggregate = PrimaryAggregate(
    runStatus: Status, status: Reply, consensus: int, needsHuman: int, candidates: int,
    primaryParts: int, primaryCompleted: int, adjudicationParts: int)

  function PrimaryStatusReply(s: Status): Reply {
    if s == AdjudicationPrepared then PreparedReply else CompletedReply
  }

  predicate ValidPrimary(v: PrimaryAggregate) {
    && v.status in {PreparedReply, CompletedReply, AlreadyProcessed}
    && v.runStatus in {AdjudicationPrepared, Done}
    && v.consensus >= 0 && v.adjudicationParts >= 0 && v.needsHuman >= 0
    && v.candidates > 0 && v.primaryParts > 0 && v.primaryCompleted == v.primaryParts
    && v.consensus <= v.candidates && v.needsHuman <= v.candidates
    && (v.status != AlreadyProcessed ==> v.status == PrimaryStatusReply(v.runStatus))
    && (v.runStatus == AdjudicationPrepared ==>
          v.adjudicationParts > 0 && v.consensus < v.candidates && v.needsHuman == 0)
    && (v.runStatus == Done ==>
          v.adjudicationParts == 0 && v.consensus == v.candidates && v.needsHuman == 0)
  }

  function PrimaryReport(st: State, status: Reply): PrimaryAggregate {
    PrimaryAggregate(st.status, status, st.acceptedByConsensus, st.needsHuman, st.candidateCount,
                     st.primaryParts, st.primaryCompleted, st.adjudicationParts)
  }

  // ------------------------------------------------ adjudication processing

  datatype Processing = Processing(
    runStatus: Status, status: Reply,
    consensus: int, adjudicated: int, needsHuman: int, candidates: int,
    primaryParts: int, primaryCompleted: int, adjudicationParts: int, adjudicationCompleted: int,
    finalParts: int, primaryCost: int, adjudicationCost: int, ceiling: int)

  function StatusReply(s: Status): Reply {
    if s == FinalReviewPrepared then PreparedReply else CompletedReply
  }

  predicate ValidProcessing(v: Processing) {
    && v.status in {PreparedReply, CompletedReply, AlreadyProcessed}
    && v.runStatus in {FinalReviewPrepared, Done}
    && v.consensus >= 0 && v.adjudicated >= 0 && v.needsHuman >= 0 && v.finalParts >= 0
    && v.primaryCost >= 0 && v.adjudicationCost >= 0
    && v.candidates > 0
    && v.primaryParts > 0 && v.primaryCompleted == v.primaryParts
    && v.adjudicationParts > 0 && v.adjudicationCompleted == v.adjudicationParts
    && v.consensus + v.adjudicated + v.needsHuman == v.candidates
    && v.adjudicationCost + v.primaryCost <= v.ceiling
    && 0 < v.ceiling <= CAP
    && (v.status != AlreadyProcessed ==> v.status == StatusReply(v.runStatus))
    && (v.runStatus == FinalReviewPrepared ==> 0 < v.finalParts <= v.needsHuman)
    && (v.runStatus == Done ==> v.finalParts == 0 && v.needsHuman == 0)
  }

  function ProcessingReport(st: State, status: Reply, ceiling: int): Option<Processing> {
    var p, a := RoundedMicros(st.actualPrimaryCost), RoundedMicros(st.actualAdjudicationCost);
    if p.None? || a.None? then None else
    Some(Processing(st.status, status, st.acceptedByConsensus, st.acceptedByAdjudication, st.needsHuman,
                    st.candidateCount, st.primaryParts, st.primaryCompleted, st.adjudicationParts,
                    st.adjudicationCompleted, st.finalReviewParts, p.value, a.value, ceiling))
  }
}
