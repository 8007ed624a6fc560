/** Replays and crash points of the adjudication-result worker. */
module AdjudicationOutcome {
  import opened Names
  import opened RunState
  import opened Files
  import opened Inventories
  import opened Contracts
  import opened PrimaryProcessing
  import opened PrimaryOutcome
  import opened AdjudicationProcessing

  /** An accepted replay changes nothing: not the state, no file of any group,
      not the set of directories, not even a directory's link count.  Only the
      two states at hand have to be told apart by their serialised forms. */
  lemma ReplayIsNoOp(before: Inventory, st: State, after: Inventory, st': State,
                     reader: Reader, canonical: State -> Bytes, ceiling: int)
    requires canonical(st) == canonical(st') ==> st == st'
    requires AcceptedCall(before, st, after, st', reader, canonical, ceiling)
    requires Replay(st)
    ensures st' == st && after.files == before.files
    ensures after.directories.Keys == before.directories.Keys
    ensures after.root.links == before.root.links
    ensures forall d :: d in before.directories ==> after.directories[d].links == before.directories[d].links
  {
    var b, a := before.files, after.files;
    assert st' == st;
    OutcomeFixesNames(before, after, st, reader, canonical);
    IncludedWithSameNames(b.requests, a.requests);
    IncludedWithSameNames(b.derived, a.derived);
    NothingCreated(before, after);
  }

  lemma OutcomeFixesNames(before: Inventory, after: Inventory, st: State, reader: Reader, canonical: State -> Bytes)
    requires Replay(st)
    requires ProcessingShape(before, st, reader, canonical) && ProcessingShape(after, st, reader, canonical)
    requires before.files.artifacts == after.files.artifacts
    ensures before.files.requests.Keys == after.files.requests.Keys
    ensures before.files.derived.Keys == after.files.derived.Keys
    ensures before.directories.Keys == after.directories.Keys
  {
  }

  lemma IncludedWithSameNames(a: Contents, b: Contents)
    requires Included(a, b) && a.Keys == b.Keys
    ensures a == b
  {
  }

  lemma NothingCreated(before: Inventory, after: Inventory)
    requires DirectoriesKept(before, after) && before.directories.Keys == after.directories.Keys
    ensures after.root.links == before.root.links
    ensures forall d :: d in before.directories ==> after.directories[d].links == before.directories[d].links
  {
    assert after.directories.Keys - before.directories.Keys == {};
    forall d: string
      ensures |Children({}, d)| == 0
    {
      assert Children({}, d) == {};
    }
  }

  /** And an untouched directory is an accepted replay, whenever its outcome can
      be reported: the no-op is not only allowed but enough. */
  lemma UntouchedReplayIsAccepted(inv: Inventory, st: State, reader: Reader, canonical: State -> Bytes, ceiling: int)
    requires Replay(st) && ProcessingShape(inv, st, reader, canonical)
    requires var report := ProcessingReport(st, AlreadyProcessed, ceiling); report.Some? && ValidProcessing(report.value)
    ensures AcceptedCall(inv, st, inv, st, reader, canonical, ceiling)
  {
    hide ProcessingShape, ProcessingReport, ValidProcessing, FilesKept, DirectoriesKept;
    UntouchedIsKept(inv);
  }

  lemma UntouchedIsKept(inv: Inventory)
    ensures FilesKept(inv.files, inv.files) && DirectoriesKept(inv, inv)
  {
    assert inv.directories.Keys - inv.directories.Keys == {};
    forall d: string
      ensures |Children({}, d)| == 0
    {
      assert Children({}, d) == {};
    }
  }

  /** A fresh call only ever moves a run whose adjudication is fully observed to
      one of the two outcomes, and the outcome is named in the reply. */
  lemma FreshCallReachesAnOutcome(before: Inventory, st: State, after: Inventory, st': State,
                                  reader: Reader, canonical: State -> Bytes, ceiling: int)
    requires AcceptedCall(before, st, after, st', reader, canonical, ceiling)
    requires !Replay(st)
    ensures st.status == AdjudicationPartCompleted && st'.status in {FinalReviewPrepared, Done}
    ensures ReplyFor(st, st') == StatusReply(st'.status)
    ensures st'.adjudicationParts == st.adjudicationParts && st'.primaryParts == st.primaryParts
    ensures st'.adjudicationCompleted == st.adjudicationParts
  {
    JournalsFixPartCounts(before.files.journals.Keys, st, st');
  }

  /** The journal names alone determine both part counts. */
  lemma JournalsFixPartCounts(names: set<string>, st: State, st': State)
    requires names == AllJournals(st) && names == AllJournals(st')
    ensures st.primaryParts == st'.primaryParts && st.adjudicationParts == st'.adjudicationParts
  {
    JournalsBoundPartCounts(names, st, st');
    JournalsBoundPartCounts(names, st', st);
  }

  lemma JournalsBoundPartCounts(names: set<string>, st: State, st': State)
    requires names == AllJournals(st) && names == AllJournals(st')
    ensures st.primaryParts <= st'.primaryParts && st.adjudicationParts <= st'.adjudicationParts
  {
    JournalBounds(names, st, st', Primary, st.primaryParts);
    JournalBounds(names, st, st', Adjudication, st.adjudicationParts);
  }

  lemma JournalBounds(names: set<string>, st: State, st': State, s: Stage, p: nat)
    requires names == AllJournals(st) && names == AllJournals(st')
    requires (s == Primary && p == st.primaryParts) || (s == Adjudication && p == st.adjudicationParts)
    ensures p <= if s == Primary then st'.primaryParts else st'.adjudicationParts
  {
    if p > 0 {
      InParts(s, p, Intent, s, Intent, 1, p);
      assert PartName(s, p, Intent) in names;
      InParts(s, p, Intent, Primary, Intent, 1, st'.primaryParts);
      InParts(s, p, Intent, Primary, Completed, 1, st'.primaryParts);
      InParts(s, p, Intent, Adjudication, Intent, 1, st'.adjudicationParts);
      InParts(s, p, Intent, Adjudication, Completed, 1, st'.adjudicationParts);
    }
  }

  // ------------------------------------------------------------ crash points

  /** `x` is the directory at some point of a call that leads from `x0` to
      `x1`: the state is not yet saved, and files and directories were only
      added.  Writes are create-once, so order does not matter. */
  predicate CrashPoint(x0: Inventory, x: Inventory, x1: Inventory) {
    && x.files.state == x0.files.state
    && FilesKept(x0.files, x.files) && FilesKept(x.files, x1.files)
    && x0.directories.Keys <= x.directories.Keys <= x1.directories.Keys
  }

  /** What the shape check asks of the requests: each final-review one is
      numbered within the candidate count. */
  ghost predicate RequestsWithin(names: set<string>, candidates: nat) {
    forall p: nat :: PartName(FinalReview, p, Request) in names ==> p <= candidates
  }

  /** Crash points are valid inputs again: the worker refuses the partial work
      of an interrupted call exactly when it finds a final-review request
      numbered beyond the candidate count.  With a count the call leaves alone,
      as the workflow does, there is none. */
  lemma CrashPointsAcceptedExactly(x0: Inventory, x: Inventory, x1: Inventory, st: State, st': State,
                                   reader: Reader, canonical: State -> Bytes, ceiling: int)
    requires st.status == AdjudicationPartCompleted
    requires AcceptedCall(x0, st, x1, st', reader, canonical, ceiling)
    requires CrashPoint(x0, x, x1)
    ensures ProcessingShape(x, st, reader, canonical) <==> RequestsWithin(x.files.requests.Keys, st.candidateCount)
    ensures st'.candidateCount <= st.candidateCount ==> ProcessingShape(x, st, reader, canonical)
  {
    FreshCallReachesAnOutcome(x0, st, x1, st', reader, canonical, ceiling);
    assert st'.finalReviewParts <= st'.candidateCount;
    CrashPointDerived(x0, x, x1, st, st', reader, canonical);
    var (r, parts) := (x.files.requests.Keys, st'.finalReviewParts);
    assert BaseRequests(st) <= r <= BaseRequests(st) + Parts(FinalReview, Request, 1, parts) by {
      assert x0.files.requests.Keys <= r <= x1.files.requests.Keys;
      if st'.status == Done { assert parts == 0 && Parts(FinalReview, Request, 1, 0) == {}; }
    }
    hide ProcessingShape, BaseRequests, ProcessingReport, ValidProcessing, FilesKept, DirectoriesKept;
    FinalRequestsWithin(r, st, parts);
  }

  /** All of the shape but the requests. */
  lemma CrashPointDerived(x0: Inventory, x: Inventory, x1: Inventory, st: State, st': State,
                          reader: Reader, canonical: State -> Bytes)
    requires st.status == AdjudicationPartCompleted && st'.status in {FinalReviewPrepared, Done}
    requires ProcessingShape(x0, st, reader, canonical) && ProcessingShape(x1, st', reader, canonical)
    requires CrashPoint(x0, x, x1)
    ensures ProcessingShape(x, st, reader, canonical) <==> RequestShape(x.files.requests.Keys, st)
  {
    hide RequestShape, AllJournals, RequiredOutputs, OptionalOutputs, PrimaryDerived, AdjudicationDerived, Completion, CompletedOutputs;
    assert x0.files.derived.Keys <= x.files.derived.Keys <= x1.files.derived.Keys;
    assert x.files.artifacts == x0.files.artifacts && x1.files.artifacts == x0.files.artifacts;
  }

  lemma FinalRequestsWithin(names: set<string>, st: State, parts: nat)
    requires st.status == AdjudicationPartCompleted
    requires BaseRequests(st) <= names <= BaseRequests(st) + Parts(FinalReview, Request, 1, parts)
    ensures RequestShape(names, st) <==> RequestsWithin(names, st.candidateCount)
    ensures parts <= st.candidateCount ==> RequestShape(names, st)
  {
    hide PartName;
    forall p: nat
      ensures PartName(FinalReview, p, Request) !in BaseRequests(st)
      ensures PartName(FinalReview, p, Request) in Parts(FinalReview, Request, 1, st.candidateCount) <==> 1 <= p <= st.candidateCount
      ensures PartName(FinalReview, p, Request) in Parts(FinalReview, Request, 1, parts) <==> 1 <= p <= parts
    {
      InParts(FinalReview, p, Request, Primary, Request, 1, st.primaryParts);
      InParts(FinalReview, p, Request, Adjudication, Request, 1, st.adjudicationParts);
      InParts(FinalReview, p, Request, FinalReview, Request, 1, st.candidateCount);
      InParts(FinalReview, p, Request, FinalReview, Request, 1, parts);
    }
    hide BaseRequests;
    if RequestsWithin(names, st.candidateCount) {
      forall n | n in names && n !in BaseRequests(st)
        ensures n in Parts(FinalReview, Request, 1, st.candidateCount)
      {
        var p: nat :| 1 <= p <= parts && n == PartName(FinalReview, p, Request);
      }
    }
  }

  /** And the retry can finish: on POSIX trees a second call that reads the
      crash point and leaves the same final directory is accepted too, with
      the same reply, exactly when the crash point is. */
  lemma RetryFinishesTheCall(x0: Inventory, x: Inventory, x1: Inventory, st: State, st': State,
                             reader: Reader, canonical: State -> Bytes, ceiling: int)
    requires st.status == AdjudicationPartCompleted
    requires AcceptedCall(x0, st, x1, st', reader, canonical, ceiling)
    requires CrashPoint(x0, x, x1)
    requires PosixLinks(x) && PosixLinks(x1)
    requires x.root.device == x1.root.device && x.root.inode == x1.root.inode
    requires forall d :: d in x.directories ==>
      x.directories[d].device == x1.directories[d].device && x.directories[d].inode == x1.directories[d].inode
    ensures AcceptedCall(x, st, x1, st', reader, canonical, ceiling) <==> RequestsWithin(x.files.requests.Keys, st.candidateCount)
  {
    CrashPointsAcceptedExactly(x0, x, x1, st, st', reader, canonical, ceiling);
    LinkCountLaw(x, x1);
    hide ProcessingShape, ProcessingReport, ValidProcessing, RequestsWithin;
  }

  /** The bound is needed: with more final-review parts than candidates the
      worker would refuse a crash point of its own, namely one with the last
      request written. */
  lemma TooManyPartsWouldBeRefused(x: Inventory, st: State, parts: nat, reader: Reader, canonical: State -> Bytes)
    requires st.status == AdjudicationPartCompleted && parts >= 1
    requires PartName(FinalReview, parts, Request) in x.files.requests
    requires ProcessingShape(x, st, reader, canonical)
    ensures parts <= st.candidateCount
  {
    InParts(FinalReview, parts, Request, Primary, Request, 1, st.primaryParts);
    InParts(FinalReview, parts, Request, Adjudication, Request, 1, st.adjudicationParts);
    InParts(FinalReview, parts, Request, FinalReview, Request, 1, st.candidateCount);
  }
}
