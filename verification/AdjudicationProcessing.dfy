/** The adjudication-result worker: what it reads, the shapes it accepts, and
    the evidence it compares before and after. */
module AdjudicationProcessing {
  import opened Names
  import opened RunState
  import opened Files
  import opened Inventories
  import opened Costs
  import opened Contracts
  import opened PrimaryProcessing
  import opened PrimaryOutcome

  /** What the worker keeps of a directory's metadata. */
  datatype Identity = Identity(device: int, inode: int, size: int, modified: int, links: int)

  datatype Inventory = Inventory(files: Sorted, directories: map<string, Identity>, root: Identity)

  // ------------------------------------------------------------ link counts

  /** Everything before the last slash; a top-level path has parent `.`. */
  function Parent(path: string): string {
    var cut := BeforeLastSlash(path);
    if cut == "" then "." else cut
  }

  function BeforeLastSlash(path: string): string {
    if path == "" then ""
    else if path[|path| - 1] == '/' then path[..|path| - 1]
    else BeforeLastSlash(path[..|path| - 1])
  }

  function Children(directories: set<string>, parent: string): set<string> {
    set d | d in directories && Parent(d) == parent
  }

  /** Counts the created children of one directory. */
  method ExpectedLinks(identity: Identity, directory: string, created: set<string>) returns (links: int)
    ensures links == identity.links + |Children(created, directory)|
  {
    var pending, counted: set<string> := created, {};
    var children := 0;
    while pending != {}
      invariant pending + counted == created && pending !! counted
      invariant children == |Children(counted, directory)|
    {
      var d :| d in pending;
      ChildrenInsert(counted, d, directory);
      if Parent(d) == directory { children := children + 1; }
      pending, counted := pending - {d}, counted + {d};
    }
    assert counted == created;
    return identity.links + children;
  }

  lemma ChildrenInsert(counted: set<string>, d: string, parent: string)
    requires d !in counted
    ensures |Children(counted + {d}, parent)| ==
            |Children(counted, parent)| + if Parent(d) == parent then 1 else 0
  {
    if Parent(d) == parent {
      assert Children(counted + {d}, parent) == Children(counted, parent) + {d};
    } else {
      assert Children(counted + {d}, parent) == Children(counted, parent);
    }
  }

  /** On a POSIX tree a directory has two links and one per child directory. */
  ghost predicate PosixLinks(inv: Inventory) {
    && inv.root.links == 2 + |Children(inv.directories.Keys, ".")|
    && forall d :: d in inv.directories ==>
         inv.directories[d].links == 2 + |Children(inv.directories.Keys, d)|
  }

  lemma ChildrenSplit(old_: set<string>, new_: set<string>, parent: string)
    requires old_ <= new_
    ensures |Children(new_, parent)| == |Children(old_, parent)| + |Children(new_ - old_, parent)|
  {
    assert Children(new_, parent) == Children(old_, parent) + Children(new_ - old_, parent);
  }

  predicate SameDirectory(before: Identity, after: Identity, name: string, created: set<string>) {
    && after.device == before.device && after.inode == before.inode
    && after.links == before.links + |Children(created, name)|
  }

  predicate DirectoriesKept(before: Inventory, after: Inventory) {
    var created := after.directories.Keys - before.directories.Keys;
    && (forall d :: d in before.directories ==>
          d in after.directories && SameDirectory(before.directories[d], after.directories[d], d, created))
    && SameDirectory(before.root, after.root, ".", created)
  }

  /** The link-count law: from a POSIX tree the check on counts passes exactly
      when the later counts are those of a POSIX tree, for every directory
      that was there before, however deeply the new ones are nested. */
  lemma LinkCountLaw(before: Inventory, after: Inventory)
    requires PosixLinks(before)
    requires before.directories.Keys <= after.directories.Keys
    requires after.root.device == before.root.device && after.root.inode == before.root.inode
    requires forall d :: d in before.directories ==>
      after.directories[d].device == before.directories[d].device
      && after.directories[d].inode == before.directories[d].inode
    ensures DirectoriesKept(before, after) <==>
      && after.root.links == 2 + |Children(after.directories.Keys, ".")|
      && forall d :: d in before.directories ==>
           after.directories[d].links == 2 + |Children(after.directories.Keys, d)|
  {
    var o, n := before.directories.Keys, after.directories.Keys;
    forall d { ChildrenSplit(o, n, d); }
    assert forall d :: d in before.directories ==>
      (SameDirectory(before.directories[d], after.directories[d], d, n - o) <==>
       after.directories[d].links == 2 + |Children(n, d)|);
  }

  // ------------------------------------------------------------------ shape

  function AllJournals(st: State): set<string> {
    Parts(Primary, Intent, 1, st.primaryParts) + Parts(Primary, Completed, 1, st.primaryParts)
    + Parts(Adjudication, Intent, 1, st.adjudicationParts) + Parts(Adjudication, Completed, 1, st.adjudicationParts)
  }

  function RequiredOutputs(st: State): set<string> {
    Parts(Primary, Output, 1, st.primaryParts) + Parts(Adjudication, Output, 1, st.adjudicationParts)
  }

  function OptionalOutputs(st: State): set<string> {
    Parts(Primary, ApiErrors, 1, st.primaryParts) + Parts(Adjudication, ApiErrors, 1, st.adjudicationParts)
  }

  function BaseRequests(st: State): set<string> {
    Parts(Primary, Request, 1, st.primaryParts) + Parts(Adjudication, Request, 1, st.adjudicationParts)
  }

  predicate RequestShape(names: set<string>, st: State) {
    if st.status == AdjudicationPartCompleted then
      Within(names, BaseRequests(st), Parts(FinalReview, Request, 1, st.candidateCount))
    else if st.status == FinalReviewPrepared then
      st.finalReviewParts > 0 &&
      names == BaseRequests(st) + Parts(FinalReview, Request, 1, st.finalReviewParts)
    else
      names == BaseRequests(st)
  }

  function Completion(out: ReviewedSet): set<string> {
    out.files + {REVIEW_LEDGER, CALIBRATION}
  }

  predicate DerivedShape(derived: set<string>, directories: set<string>, st: State, out: ReviewedSet) {
    match st.status
    case AdjudicationPartCompleted =>
      && Within(derived, PrimaryDerived(), AdjudicationDerived() + Completion(out))
      && directories <= out.directories
    case FinalReviewPrepared =>
      derived == PrimaryDerived() + AdjudicationDerived() && directories == {}
    case Done =>
      && derived == PrimaryDerived() + AdjudicationDerived() + Completion(out)
      && directories == out.directories
    case _ => false
  }

  predicate ProcessingShape(inv: Inventory, st: State, reader: Reader, canonical: State -> Bytes) {
    var f := inv.files;
    && f.state == canonical(st)
    && f.artifacts.Keys == {CANDIDATES, SOURCE_MANIFEST}
    && st.primaryParts > 0 && st.adjudicationParts > 0
    && f.journals.Keys == AllJournals(st)
    && Within(f.outputs.Keys, RequiredOutputs(st), OptionalOutputs(st))
    && RequestShape(f.requests.Keys, st)
    && (var out := CompletedOutputs(reader, f.artifacts[SOURCE_MANIFEST]);
        out.Some? && DerivedShape(f.derived.Keys, inv.directories.Keys, st, out.value))
  }

  /** The shape check as the worker runs it: expected sets grow in place with
      the status, and each group is compared with its own. */
  method ValidateProcessingShape(inv: Inventory, st: State, reader: Reader, canonical: State -> Bytes) returns (ok: bool)
    ensures ok <==> ProcessingShape(inv, st, reader, canonical)
  {
    var f := inv.files;
    if f.state != canonical(st) || f.artifacts.Keys != {CANDIDATES, SOURCE_MANIFEST}
       || st.primaryParts == 0 || st.adjudicationParts == 0
       || f.journals.Keys != AllJournals(st)
       || !(RequiredOutputs(st) <= f.outputs.Keys <= RequiredOutputs(st) + OptionalOutputs(st)) {
      return false;
    }
    var requests := ValidateRequests(f.requests.Keys, st);
    if !requests { return false; }
    var out := CollectCompletedOutputs(reader, f.artifacts[SOURCE_MANIFEST]);
    if out.None? { return false; }
    ok := ValidateDerived(f.derived.Keys, inv.directories.Keys, st, out.value);
  }

  method ValidateRequests(names: set<string>, st: State) returns (ok: bool)
    ensures ok <==> RequestShape(names, st)
  {
    var expected := BaseRequests(st);
    var finalCount := 0;
    if st.status == FinalReviewPrepared {
      if st.finalReviewParts == 0 { return false; }
      finalCount := st.finalReviewParts;
    }
    if st.status == AdjudicationPartCompleted {
      return expected <= names <= expected + Parts(FinalReview, Request, 1, st.candidateCount);
    }
    expected := expected + Parts(FinalReview, Request, 1, finalCount);
    assert finalCount == 0 ==> Parts(FinalReview, Request, 1, finalCount) == {};
    return names == expected;
  }

  method ValidateDerived(derived: set<string>, directories: set<string>, st: State, out: ReviewedSet) returns (ok: bool)
    ensures ok <==> DerivedShape(derived, directories, st, out)
  {
    var required := PrimaryDerived();
    var allowed := required + AdjudicationDerived();
    var requiredDirectories: set<string>, allowedDirectories: set<string> := {}, {};
    match st.status {
      case Done =>
        required := required + AdjudicationDerived() + Completion(out);
        allowed := required;
        requiredDirectories, allowedDirectories := out.directories, out.directories;
      case FinalReviewPrepared =>
        required := required + AdjudicationDerived();
      case AdjudicationPartCompleted =>
        allowed := allowed + Completion(out);
        allowedDirectories := out.directories;
      case _ => return false;
    }
    hide PrimaryDerived, AdjudicationDerived, Completion;
    return required <= derived <= allowed && requiredDirectories <= directories <= allowedDirectories;
  }

  // --------------------------------------------------------------- evidence

  /** The same files except that requests and derived files may be added. */
  predicate FilesKept(before: Sorted, after: Sorted) {
    && after.artifacts == before.artifacts
    && after.journals == before.journals
    && after.outputs == before.outputs
    && Included(before.requests, after.requests)
    && Included(before.derived, after.derived)
  }

  predicate Replay(st: State) { st.status in {FinalReviewPrepared, Done} }

  function ReplyFor(st: State, st': State): Reply {
    if Replay(st) then AlreadyProcessed else StatusReply(st'.status)
  }

  /** Everything one accepted call checks. */
  predicate AcceptedCall(before: Inventory, st: State, after: Inventory, st': State,
                         reader: Reader, canonical: State -> Bytes, ceiling: int) {
    && ProcessingShape(before, st, reader, canonical)
    && st'.runId == st.runId
    && ProcessingShape(after, st', reader, canonical)
    && FilesKept(before.files, after.files)
    && DirectoriesKept(before, after)
    && (Replay(st) ==> before.files.state == after.files.state)
    && (var report := ProcessingReport(st', ReplyFor(st, st'), ceiling);
        report.Some? && ValidProcessing(report.value))
  }

  method IncludedIn(a: Contents, b: Contents) returns (ok: bool)
    ensures ok <==> Included(a, b)
  {
    var pending := a.Keys;
    while pending != {}
      invariant pending <= a.Keys
      invariant forall n :: n in a.Keys - pending ==> n in b && b[n] == a[n]
    {
      var name :| name in pending;
      if name !in b || b[name] != a[name] { return false; }
      pending := pending - {name};
    }
    return true;
  }

  method CompareDirectories(before: Inventory, after: Inventory) returns (ok: bool)
    ensures ok <==> DirectoriesKept(before, after)
  {
    var created := after.directories.Keys - before.directories.Keys;
    var pending := before.directories.Keys;
    while pending != {}
      invariant pending <= before.directories.Keys
      invariant forall d :: d in before.directories.Keys - pending ==>
        d in after.directories && SameDirectory(before.directories[d], after.directories[d], d, created)
    {
      var name :| name in pending;
      if name !in after.directories { return false; }
      var identity, observed := before.directories[name], after.directories[name];
      var links := ExpectedLinks(identity, name, created);
      if (observed.device, observed.inode, observed.links) != (identity.device, identity.inode, links) {
        return false;
      }
      pending := pending - {name};
    }
    var rootLinks := ExpectedLinks(before.root, ".", created);
    return (after.root.device, after.root.inode, after.root.links)
           == (before.root.device, before.root.inode, rootLinks);
  }

  /** The worker's checks around one processing call, in the worker's order. */
  method Process(before: Inventory, st: State, after: Inventory, st': State,
                 reader: Reader, canonical: State -> Bytes, ceiling: int)
    returns (r: Option<Processing>)
    ensures r.Some? <==> AcceptedCall(before, st, after, st', reader, canonical, ceiling)
    ensures r.Some? ==> r == ProcessingReport(st', ReplyFor(st, st'), ceiling)
    ensures r.Some? ==>
      && r.value.runStatus == st'.status && st'.status in {FinalReviewPrepared, Done}
      && r.value.status == (if st.status in {FinalReviewPrepared, Done} then AlreadyProcessed
                            else if st'.status == FinalReviewPrepared then PreparedReply else CompletedReply)
      && r.value.consensus == st'.acceptedByConsensus && r.value.adjudicated == st'.acceptedByAdjudication
      && r.value.needsHuman == st'.needsHuman && r.value.candidates == st'.candidateCount
      && r.value.primaryParts == st'.primaryParts && r.value.primaryCompleted == st'.primaryCompleted
      && r.value.adjudicationParts == st'.adjudicationParts && r.value.adjudicationCompleted == st'.adjudicationCompleted
      && r.value.finalParts == st'.finalReviewParts && r.value.ceiling == ceiling
    ensures r.Some? ==>
      && LeastNotBelow(r.value.primaryCost, st'.actualPrimaryCost * 1000000.0)
      && LeastNotBelow(r.value.adjudicationCost, st'.actualAdjudicationCost * 1000000.0)
  {
    hide ProcessingShape, DirectoriesKept, Included, LeastNotBelow;
    var shapeBefore := ValidateProcessingShape(before, st, reader, canonical);
    if !shapeBefore || st'.runId != st.runId { return None; }
    var shapeAfter := ValidateProcessingShape(after, st', reader, canonical);
    if !shapeAfter { return None; }
    var b, a := before.files, after.files;
    if b.artifacts != a.artifacts || b.journals != a.journals || b.outputs != a.outputs { return None; }
    var requests := IncludedIn(b.requests, a.requests);
    var derived := IncludedIn(b.derived, a.derived);
    var directories := CompareDirectories(before, after);
    if !requests || !derived || !directories { return None; }
    if Replay(st) && b.state != a.state { return None; }
    var report := ProcessingReport(st', ReplyFor(st, st'), ceiling);
    if report.None? || !ValidProcessing(report.value) { return None; }
    RoundedIsLeast(st'.actualPrimaryCost);
    RoundedIsLeast(st'.actualAdjudicationCost);
    return report;
  }
}
