/** The persisted state of a speaker-review run, and the files of its directory. */
module RunState {
  import opened Names

  datatype Status =
    | Prepared | PrimarySubmitted | PrimaryPartCompleted
    | AdjudicationPrepared | AdjudicationSubmitted | AdjudicationPartCompleted
    | FinalReviewPrepared | FinalReviewSubmitted | Done | NeedsHuman | Failed

  type Bytes = seq<int>

  /** Every field the workers compare.  `settings` stands for the fields no
      checked transition may change and no check reads: schema version,
      creation time, models, prompt version, retry and human counters. */
  datatype State = State(
    runId: string,
    status: Status,
    updatedAt: string,
    candidateCount: nat,
    estimatedPrimaryCost: real,
    actualPrimaryCost: real,
    actualAdjudicationCost: real,
    primaryParts: nat,
    primaryCompleted: nat,
    primaryBatchIds: seq<string>,
    primaryInputIds: seq<string>,
    adjudicationParts: nat,
    adjudicationCompleted: nat,
    batchId: Option<string>,
    inputId: Option<string>,
    batchIds: seq<string>,
    inputIds: seq<string>,
    finalReviewParts: nat,
    acceptedByConsensus: nat,
    acceptedByAdjudication: nat,
    needsHuman: nat,
    settings: Bytes)
}
