/** The directories the two result workers accept, status by status, with every
    name written out. */
module OutcomeSpelled {
  import opened Names
  import opened Groups
  import opened RunState
  import opened Files
  import opened Inventories
  import Contracts
  import opened PrimaryProcessing
  import opened PrimaryOutcome
  import opened AdjudicationProcessing

  function PrimaryNames(): set<string> { {"primary-verdicts.jsonl", "primary-parse-errors.json", "primary-decisions.jsonl"} }

  function AdjudicationNames(): set<string> {
    {"adjudication-verdicts.jsonl", "adjudication-parse-errors.json", "final-decisions.jsonl"}
  }

  lemma FixedSets()
    ensures PrimaryDerived() == PrimaryNames() && AdjudicationDerived() == AdjudicationNames()
    ensures {REVIEW_LEDGER, CALIBRATION} == {"review-ledger.json", "calibration-sample.json"}
    ensures {CANDIDATES, SOURCE_MANIFEST} == {"candidates.jsonl", "source-manifest.json"}
  {
  }

  // ------------------------------------------------------------ primary stage

  /** A derived name the worker admits while it may be retried. */
  ghost predicate RetryName(n: string, candidates: nat) {
    n in PrimaryNames() || exists p: nat :: 1 <= p <= candidates && p <= 9_999 && n == PartName(Adjudication, p, Request)
  }

  lemma RetryNamesExactly(n: string, candidates: nat)
    ensures Retryable(n, candidates) <==> RetryName(n, candidates)
  {
    hide PartName, MatchAdjudicationRequest;
    FixedSets();
    hide PrimaryDerived, PrimaryNames;
    if MatchAdjudicationRequest(n).Some? { MatchIsPartName(n, MatchAdjudicationRequest(n).value); }
    forall p: nat | p <= 9_999 && n == PartName(Adjudication, p, Request)
      ensures MatchAdjudicationRequest(n) == Some(p)
    {
      RequestMatches(p);
    }
  }

  /** The primary-result worker's directory: sources and requests, both journal
      records and an output for every part, perhaps error files; and derived
      files by status. */
  lemma PrimaryShapeExactly(s: Snapshot, st: State, reader: Reader)
    ensures Shape(s, st, reader) <==>
      && s.artifacts.Keys == {"candidates.jsonl", "source-manifest.json"} + Parts(Primary, Request, 1, st.primaryParts)
      && s.journals.Keys == Parts(Primary, Intent, 1, st.primaryParts) + Parts(Primary, Completed, 1, st.primaryParts)
      && Parts(Primary, Output, 1, st.primaryParts) <= s.outputs.Keys
      && s.outputs.Keys <= Parts(Primary, Output, 1, st.primaryParts) + Parts(Primary, ApiErrors, 1, st.primaryParts)
      && (match st.status
          case PrimaryPartCompleted => forall n :: n in s.derived ==> RetryName(n, st.candidateCount)
          case AdjudicationPrepared => s.derived.Keys == PrimaryNames() + Parts(Adjudication, Request, 1, st.adjudicationParts)
          case Done =>
            var out := CompletedOutputs(reader, s.artifacts["source-manifest.json"]);
            out.Some? && s.derived.Keys == PrimaryNames() + {"review-ledger.json", "calibration-sample.json"} + out.value.files
                                           + (set d | d in out.value.directories :: d + "/")
          case _ => s.derived == map[])
  {
    FixedSets();
    forall n { RetryNamesExactly(n, st.candidateCount); }
    hide Parts, Retryable, RetryName, CompletedOutputs, PrimaryDerived, PrimaryNames;
    assert forall m: Contents :: m.Keys == {} <==> m == map[];
  }

  /** One accepted call of that worker: from a fully observed run, both
      directories in shape, nothing of the evidence changed, the saved state the
      one it returns, and a report the contract takes. */
  lemma PrimaryCallExactly(before: Snapshot, st: State, after: Snapshot, st': State, reader: Reader, load: Bytes -> Option<State>)
    ensures Accepted(before, st, after, st', reader, load) <==>
      && (st.status == PrimaryPartCompleted || st.status == AdjudicationPrepared || st.status == Done)
      && st.primaryParts >= 1 && st.primaryParts == st.primaryCompleted
      && Shape(before, st, reader) && Shape(after, st', reader) && Transition(st, st')
      && after.artifacts == before.artifacts && after.journals == before.journals && after.outputs == before.outputs
      && (forall n :: n in before.derived ==> n in after.derived && after.derived[n] == before.derived[n])
      && load(after.state) == Some(st')
      && (var reply := if st.status != PrimaryPartCompleted then Contracts.AlreadyProcessed
                       else if st'.status == AdjudicationPrepared then Contracts.PreparedReply else Contracts.CompletedReply;
          Contracts.ValidPrimary(Contracts.PrimaryReport(st', reply)))
  {
    hide Shape, Transition, Contracts.ValidPrimary, Contracts.PrimaryReport;
  }

  // ------------------------------------------------------- adjudication stage

  /** The adjudication-result worker's directory, group by group. */
  lemma AdjudicationShapeExactly(inv: Inventory, st: State, reader: Reader, canonical: State -> Bytes)
    ensures ProcessingShape(inv, st, reader, canonical) ==>
      && st.status in {AdjudicationPartCompleted, FinalReviewPrepared, Done}
      && inv.files.state == canonical(st)
      && inv.files.artifacts.Keys == {"candidates.jsonl", "source-manifest.json"}
      && CompletedOutputs(reader, inv.files.artifacts["source-manifest.json"]).Some?
    ensures (&& st.status in {AdjudicationPartCompleted, FinalReviewPrepared, Done}
             && inv.files.state == canonical(st)
             && inv.files.artifacts.Keys == {"candidates.jsonl", "source-manifest.json"}
             && CompletedOutputs(reader, inv.files.artifacts["source-manifest.json"]).Some?) ==>
      (ProcessingShape(inv, st, reader, canonical) <==>
        var (f, n, m) := (inv.files, st.primaryParts, st.adjudicationParts);
        var out := CompletedOutputs(reader, f.artifacts["source-manifest.json"]).value;
        var base := Parts(Primary, Request, 1, n) + Parts(Adjudication, Request, 1, m);
        var final := out.files + {"review-ledger.json", "calibration-sample.json"};
        && n >= 1 && m >= 1
        && f.journals.Keys == Parts(Primary, Intent, 1, n) + Parts(Primary, Completed, 1, n)
                              + Parts(Adjudication, Intent, 1, m) + Parts(Adjudication, Completed, 1, m)
        && Parts(Primary, Output, 1, n) + Parts(Adjudication, Output, 1, m) <= f.outputs.Keys
        && f.outputs.Keys <= Parts(Primary, Output, 1, n) + Parts(Adjudication, Output, 1, m)
                             + (Parts(Primary, ApiErrors, 1, n) + Parts(Adjudication, ApiErrors, 1, m))
        && (match st.status
            case AdjudicationPartCompleted =>
              && base <= f.requests.Keys && f.requests.Keys <= base + Parts(FinalReview, Request, 1, st.candidateCount)
              && PrimaryNames() <= f.derived.Keys && f.derived.Keys <= PrimaryNames() + (AdjudicationNames() + final)
              && inv.directories.Keys <= out.directories
            case FinalReviewPrepared =>
              && st.finalReviewParts >= 1 && f.requests.Keys == base + Parts(FinalReview, Request, 1, st.finalReviewParts)
              && f.derived.Keys == PrimaryNames() + AdjudicationNames() && inv.directories == map[]
            case _ =>
              && f.requests.Keys == base
              && f.derived.Keys == PrimaryNames() + AdjudicationNames() + final
              && inv.directories.Keys == out.directories))
  {
    FixedSets();
    hide Parts, CompletedOutputs, PrimaryDerived, PrimaryNames, AdjudicationDerived, AdjudicationNames;
    assert inv.directories.Keys == {} <==> inv.directories == map[];
  }

  /** A directory that was there before is the same one, and counts one link
      more for every directory made in it. */
  predicate SamePlace(before: Identity, after: Identity, made: nat) {
    after.device == before.device && after.inode == before.inode && after.links == before.links + made
  }

  /** One accepted call of that worker: both directories in shape, nothing of
      the evidence changed, requests and derived files only added, directories
      kept, on a replay the very same state, and a report the contract takes. */
  lemma AdjudicationCallExactly(before: Inventory, st: State, after: Inventory, st': State, reader: Reader,
                                canonical: State -> Bytes, ceiling: int)
    ensures AcceptedCall(before, st, after, st', reader, canonical, ceiling) <==>
      && ProcessingShape(before, st, reader, canonical) && ProcessingShape(after, st', reader, canonical)
      && st'.runId == st.runId
      && after.files.artifacts == before.files.artifacts && after.files.journals == before.files.journals
      && after.files.outputs == before.files.outputs
      && (forall n :: n in before.files.requests ==>
            n in after.files.requests && after.files.requests[n] == before.files.requests[n])
      && (forall n :: n in before.files.derived ==> n in after.files.derived && after.files.derived[n] == before.files.derived[n])
      && before.directories.Keys <= after.directories.Keys
      && (var created := after.directories.Keys - before.directories.Keys;
          && (forall d :: d in before.directories ==>
                SamePlace(before.directories[d], after.directories[d], |Children(created, d)|))
          && SamePlace(before.root, after.root, |Children(created, ".")|))
      && (st.status == FinalReviewPrepared || st.status == Done ==> after.files.state == before.files.state)
      && (var reply := if st.status == FinalReviewPrepared || st.status == Done then Contracts.AlreadyProcessed
                       else if st'.status == FinalReviewPrepared then Contracts.PreparedReply else Contracts.CompletedReply;
          var report := Contracts.ProcessingReport(st', reply, ceiling);
          report.Some? && Contracts.ValidProcessing(report.value))
  {
    hide ProcessingShape, Contracts.ValidProcessing, Contracts.ProcessingReport, Children, FilesKept, DirectoriesKept, SamePlace;
    FilesKeptExactly(before.files, after.files);
    DirectoriesKeptExactly(before, after);
  }

  lemma FilesKeptExactly(before: Sorted, after: Sorted)
    ensures FilesKept(before, after) <==>
      && after.artifacts == before.artifacts && after.journals == before.journals && after.outputs == before.outputs
      && (forall n :: n in before.requests ==> n in after.requests && after.requests[n] == before.requests[n])
      && (forall n :: n in before.derived ==> n in after.derived && after.derived[n] == before.derived[n])
  {
  }

  lemma DirectoriesKeptExactly(before: Inventory, after: Inventory)
    ensures DirectoriesKept(before, after) <==>
      && before.directories.Keys <= after.directories.Keys
      && (var created := after.directories.Keys - before.directories.Keys;
          && (forall d :: d in before.directories ==>
                SamePlace(before.directories[d], after.directories[d], |Children(created, d)|))
          && SamePlace(before.root, after.root, |Children(created, ".")|))
  {
    hide Children;
  }

  /** The parent of a path stands before its last slash; that of a top-level
      name is the root. */
  lemma {:induction false} ParentSpelled(front: string, name: string)
    requires '/' !in name && front != ""
    ensures Parent(front + "/" + name) == front && Parent(name) == "."
    decreases |name|
  {
    LastSlash(front, name);
    NoSlash(name);
  }

  lemma {:induction false} LastSlash(front: string, name: string)
    requires '/' !in name
    ensures BeforeLastSlash(front + "/" + name) == front
    decreases |name|
  {
    var path := front + "/" + name;
    if name == "" {
      assert path[|path| - 1] == '/' && path[..|path| - 1] == front;
    } else {
      assert path[|path| - 1] == name[|name| - 1] && name[|name| - 1] in name;
      assert path[..|path| - 1] == front + "/" + name[..|name| - 1];
      LastSlash(front, name[..|name| - 1]);
    }
  }

  lemma {:induction false} NoSlash(name: string)
    requires '/' !in name
    ensures BeforeLastSlash(name) == ""
  {
    if name != "" {
      assert name[|name| - 1] in name;
      NoSlash(name[..|name| - 1]);
    }
  }

  /** A directory's children are counted one level down. */
  lemma ChildrenSpelled(directories: set<string>, parent: string, d: string)
    ensures d in Children(directories, parent) <==> d in directories && Parent(d) == parent
    ensures Children({"a", "a/b", "a/c", "a/b/d"}, "a") == {"a/b", "a/c"}
  {
    ParentSpelled("a", "b");
    ParentSpelled("a", "c");
    ParentSpelled("a/b", "d");
    assert "a" + "/" + "b" == "a/b" && "a" + "/" + "c" == "a/c" && "a/b" + "/" + "d" == "a/b/d";
    assert |"a/b"| == 3 && |"a"| == 1 && |"."| == 1;
  }

  /** A snapshot keeps the state, three groups of files, and with the derived
      files an empty entry for every directory, its name closed by a slash. */
  lemma SnapshotSpelled(disk: Contents, directories: set<string>, n: string)
    requires RUN_STATE in disk
    ensures var s := SnapshotOf(disk, directories);
      && s.state == disk["run-state.json"]
      && (n in s.artifacts <==> n in disk && PrimaryWorkerGroup(n) == Artifacts)
      && (n in s.journals <==> n in disk && PrimaryWorkerGroup(n) == Journals)
      && (n in s.outputs <==> n in disk && PrimaryWorkerGroup(n) == Outputs)
      && (n in s.derived <==> (n in disk && PrimaryWorkerGroup(n) == Derived) || exists d :: d in directories && n == d + "/")
      && ((exists d :: d in directories && n == d + "/") ==> s.derived[n] == [])
      && (n in disk && !(exists d :: d in directories && n == d + "/") ==>
            (n in s.artifacts ==> s.artifacts[n] == disk[n]) && (n in s.journals ==> s.journals[n] == disk[n])
            && (n in s.outputs ==> s.outputs[n] == disk[n]) && (n in s.derived ==> s.derived[n] == disk[n]))
  {
    hide PrimaryWorkerGroup;
    FixedSets();
  }
}
