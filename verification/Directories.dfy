/** What the adjudication-result worker's checks say of the directories of a
    run: they are in none of its digests, and the shape check pins them down
    only in part. */
module Directories {
  import opened Names
  import opened Groups
  import opened RunState
  import opened Files
  import opened Inventories
  import opened PrimaryProcessing
  import opened AdjudicationProcessing

  /** Every file name of an inventory. */
  function FileNames(f: Sorted): set<string> {
    {RUN_STATE} + f.artifacts.Keys + f.requests.Keys + f.journals.Keys + f.outputs.Keys + f.derived.Keys
  }

  /** A walk lists the directory of everything it lists. */
  predicate Closed(files: set<string>, directories: set<string>) {
    forall x :: x in files + directories ==> Parent(x) == "." || Parent(x) in directories
  }

  predicate Above(d: string, files: set<string>) { exists f :: f in files && StartsWith(f, Slash(d)) }

  // ----------------------------------------------------------------- parents

  lemma {:induction false} LastSlash(front: string, tail: string)
    requires '/' !in tail
    ensures BeforeLastSlash(front + "/" + tail) == front
  {
    var path := front + "/" + tail;
    if tail == "" {
      assert path[..|path| - 1] == front;
    } else {
      var t := tail[..|tail| - 1];
      assert path[|path| - 1] == tail[|tail| - 1] && path[..|path| - 1] == front + "/" + t;
      LastSlash(front, t);
    }
  }

  lemma {:induction false} NoSlash(path: string)
    requires '/' !in path
    ensures BeforeLastSlash(path) == ""
  {
    if path != "" { NoSlash(path[..|path| - 1]); }
  }

  lemma FlatParent(path: string)
    requires '/' !in path
    ensures Parent(path) == "."
  {
    NoSlash(path);
  }

  lemma SeasonShape(season: nat)
    ensures var d := SeasonDirectory(season);
      StartsWith(d, "reviewed/") && Parent(d) == "reviewed" && '/' !in d[9..]
  {
    PadHasNoSlash(season);
    UnderReviewed(SeasonDirectory(season), Pad2(season));
    hide Pad2;
  }

  lemma PadHasNoSlash(n: nat)
    ensures '/' !in Pad2(n)
  {
    ValueDecimal(n);
    NoSlashInDigits(Decimal(n));
    hide Decimal, AllDigits;
  }

  lemma UnderReviewed(d: string, digits: string)
    requires '/' !in digits && d == "reviewed/season-" + digits
    ensures StartsWith(d, "reviewed/") && Parent(d) == "reviewed" && '/' !in d[9..]
  {
    var tail := "season-" + digits;
    assert d == "reviewed" + "/" + tail && d[9..] == tail;
    LastSlash("reviewed", tail);
  }

  lemma {:induction false} BelowPrefix(front: string, tail: string)
    ensures var b := BeforeLastSlash(front + "/" + tail); b == front || StartsWith(b, Slash(front))
  {
    var path := front + "/" + tail;
    if tail == "" {
      assert path[..|path| - 1] == front;
    } else {
      var t := tail[..|tail| - 1];
      assert path[|path| - 1] == tail[|tail| - 1] && path[..|path| - 1] == front + "/" + t;
      BelowPrefix(front, t);
    }
  }

  lemma {:induction false} ParentIsPrefix(path: string)
    ensures var b := BeforeLastSlash(path); b != "" ==> StartsWith(path, Slash(b))
  {
    if path != "" {
      var front := path[..|path| - 1];
      assert path == front + [path[|path| - 1]];
      if path[|path| - 1] != '/' { ParentIsPrefix(front); }
    }
  }

  /** The shape of a season's directory. */
  predicate SeasonLike(d: string) {
    StartsWith(d, "reviewed/") && Parent(d) == "reviewed" && '/' !in d[9..]
  }

  predicate AllowedLike(allowed: set<string>) {
    "reviewed" in allowed && forall d :: d in allowed ==> d == "reviewed" || SeasonLike(d)
  }

  lemma AllowedDirectories(reader: Reader, manifest: Bytes)
    requires CompletedOutputs(reader, manifest).Some?
    ensures AllowedLike(CompletedOutputs(reader, manifest).value.directories)
  {
    hide SeasonDirectory, SeasonLike;
    forall season: nat
      ensures SeasonLike(SeasonDirectory(season))
    {
      SeasonIsLike(season);
    }
  }

  lemma SeasonIsLike(season: nat)
    ensures SeasonLike(SeasonDirectory(season))
  {
    SeasonShape(season);
  }

  // -------------------------------------------------- what closedness fixes

  lemma TopParent()
    ensures Parent("reviewed") == "."
  {
    FlatParent("reviewed");
  }

  lemma UnderSeason(f: string, d: string, allowed: set<string>)
    requires AllowedLike(allowed) && SeasonLike(d) && StartsWith(f, Slash(d)) && Parent(f) in allowed
    ensures Parent(f) == d
  {
    var tail := f[|d| + 1..];
    assert f == d + "/" + tail;
    BelowPrefix(d, tail);
    OneSlash(Parent(f), d);
  }

  lemma OneSlash(b: string, d: string)
    requires b == "reviewed" || SeasonLike(b)
    requires SeasonLike(d)
    ensures !StartsWith(b, Slash(d))
  {
    assert Slash(d)[|d|] == '/' && |d| >= 9;
    assert |b| > |d| ==> b[9..][|d| - 9] == b[|d|];
  }

  /** In a closed tree every allowed directory above a file is there. */
  lemma AboveIsListed(d: string, f: string, files: set<string>, directories: set<string>, allowed: set<string>)
    requires AllowedLike(allowed) && directories <= allowed && Closed(files, directories)
    requires d in allowed && f in files && StartsWith(f, Slash(d))
    ensures d in directories
  {
    TopParent();
    var tail := f[|d| + 1..];
    assert f == d + "/" + tail;
    BelowPrefix(d, tail);
    var b := Parent(f);
    assert b != "." by { assert d[0] == 'r'; assert b[0] == d[0]; }
    assert b in directories;
    if d == "reviewed" {
      if b != d { assert Parent(b) == "reviewed"; }
    } else {
      UnderSeason(f, d, allowed);
    }
  }

  lemma AllAboveFixes(files: set<string>, directories: set<string>, allowed: set<string>)
    requires AllowedLike(allowed) && directories <= allowed && Closed(files, directories)
    requires forall d :: d in allowed ==> Above(d, files)
    ensures directories == allowed
  {
    hide AllowedLike, Closed;
    forall d | d in allowed
      ensures d in directories
    {
      var f :| f in files && StartsWith(f, Slash(d));
      AboveIsListed(d, f, files, directories, allowed);
    }
  }

  /** An allowed directory above no file may come or go. */
  lemma Alternative(files: set<string>, directories: set<string>, allowed: set<string>, d: string) returns (ds: set<string>)
    requires AllowedLike(allowed) && directories <= allowed && Closed(files, directories)
    requires d in allowed && !Above(d, files)
    requires forall f :: f in files ==> '/' !in f || StartsWith(f, "reviewed/")
    ensures ds <= allowed && ds != directories && Closed(files, ds)
  {
    TopParent();
    if d == "reviewed" {
      forall f | f in files
        ensures Parent(f) == "."
      {
        assert Slash(d) == "reviewed/" && !StartsWith(f, Slash(d));
        FlatParent(f);
      }
      ds := if directories == {} then {"reviewed"} else {};
    } else if d in directories {
      ds := directories - {d};
      forall x | x in files
        ensures Parent(x) != d
      {
        ParentIsPrefix(x);
      }
    } else {
      ds := directories + {d, "reviewed"};
    }
  }

  // ------------------------------------------------------ accepted inventories

  lemma PartsAreFlat(s: Stage, k: Kind, hi: int)
    ensures forall f :: f in Parts(s, k, 1, hi) ==> '/' !in f
  {
    hide PartName;
    forall f | f in Parts(s, k, 1, hi)
      ensures '/' !in f
    {
      var p: nat :| 1 <= p <= hi && f == PartName(s, p, k);
      PartHasNoSlash(s, p, k);
    }
  }

  lemma FixedAreFlat(f: string)
    requires IsFixedName(f)
    ensures '/' !in f
  {
    hide PrimaryDerived, AdjudicationDerived;
    if f in PrimaryDerived() {
      PrimaryDerivedAreFlat(f);
    } else if f in AdjudicationDerived() {
      AdjudicationDerivedAreFlat(f);
    } else {
      OthersAreFlat(f);
    }
  }

  lemma PrimaryDerivedAreFlat(f: string)
    requires f in PrimaryDerived()
    ensures '/' !in f
  {
  }

  lemma AdjudicationDerivedAreFlat(f: string)
    requires f in AdjudicationDerived()
    ensures '/' !in f
  {
  }

  lemma OthersAreFlat(f: string)
    requires f in {RUN_STATE, CANDIDATES, SOURCE_MANIFEST, TERMINAL_ERRORS, REVIEW_LEDGER, CALIBRATION}
    ensures '/' !in f
  {
  }

  lemma StageIsFlat(s: Stage, hi: int)
    ensures forall k, f :: f in Parts(s, k, 1, hi) ==> '/' !in f
  {
    hide Parts;
    forall k { PartsAreFlat(s, k, hi); }
  }

  lemma GroupsAreFlat(inv: Inventory, st: State, reader: Reader, canonical: State -> Bytes)
    requires ProcessingShape(inv, st, reader, canonical)
    ensures var f := inv.files;
      forall n :: n in f.artifacts.Keys + f.requests.Keys + f.journals.Keys + f.outputs.Keys + {RUN_STATE} ==> '/' !in n
  {
    hide Parts, DerivedShape, CompletedOutputs;
    StageIsFlat(Primary, st.primaryParts);
    StageIsFlat(Adjudication, st.adjudicationParts);
    StageIsFlat(FinalReview, st.candidateCount);
    StageIsFlat(FinalReview, st.finalReviewParts);
    FixedAreFlat(CANDIDATES);
    FixedAreFlat(SOURCE_MANIFEST);
    FixedAreFlat(RUN_STATE);
  }

  lemma DerivedAreFlatOrReviewed(derived: set<string>, directories: set<string>, st: State, reader: Reader, manifest: Bytes)
    requires CompletedOutputs(reader, manifest).Some?
    requires DerivedShape(derived, directories, st, CompletedOutputs(reader, manifest).value)
    ensures forall n :: n in derived ==> '/' !in n || StartsWith(n, "reviewed/")
  {
    OutputsAreUnderReviewed(reader, manifest);
    var out := CompletedOutputs(reader, manifest).value;
    hide CompletedOutputs;
    forall n | n in derived && n !in out.files
      ensures IsFixedName(n)
    {
    }
    hide DerivedShape, IsFixedName;
    forall n | n in derived && n !in out.files
      ensures '/' !in n
    {
      FixedAreFlat(n);
    }
  }

  lemma FilesAreFlatOrReviewed(inv: Inventory, st: State, reader: Reader, canonical: State -> Bytes)
    requires ProcessingShape(inv, st, reader, canonical)
    ensures forall n :: n in FileNames(inv.files) ==> '/' !in n || StartsWith(n, "reviewed/")
  {
    GroupsAreFlat(inv, st, reader, canonical);
    assert inv.files.artifacts.Keys == {CANDIDATES, SOURCE_MANIFEST};
    DerivedAreFlatOrReviewed(inv.files.derived.Keys, inv.directories.Keys, st, reader, inv.files.artifacts[SOURCE_MANIFEST]);
    hide ProcessingShape;
  }

  /** The directories the shape check allows. */
  function Allowed(inv: Inventory, reader: Reader): set<string> {
    if SOURCE_MANIFEST !in inv.files.artifacts then {} else
    var out := CompletedOutputs(reader, inv.files.artifacts[SOURCE_MANIFEST]);
    if out.Some? then out.value.directories else {}
  }

  ghost predicate AcceptedTree(inv: Inventory, st: State, reader: Reader, canonical: State -> Bytes) {
    ProcessingShape(inv, st, reader, canonical) && Closed(FileNames(inv.files), inv.directories.Keys)
  }

  /** The six digests cover files only.  On trees a walk can list, the shape
      check makes up for it, except before the outcome is saved, when a
      directory the completion may create, and that no file lies in yet, may
      be there or not. */
  lemma DirectoriesPinnedExactly(inv: Inventory, st: State, reader: Reader, canonical: State -> Bytes)
    requires AcceptedTree(inv, st, reader, canonical)
    ensures (forall ds: map<string, Identity> ::
              AcceptedTree(inv.(directories := ds), st, reader, canonical) ==> ds.Keys == inv.directories.Keys)
            <==> (st.status == AdjudicationPartCompleted ==>
                    forall d :: d in Allowed(inv, reader) ==> Above(d, FileNames(inv.files)))
  {
    hide AcceptedTree, Allowed, Above, FileNames;
    if st.status == AdjudicationPartCompleted && !forall d :: d in Allowed(inv, reader) ==> Above(d, FileNames(inv.files)) {
      var d :| d in Allowed(inv, reader) && !Above(d, FileNames(inv.files));
      var ds := OtherDirectories(inv, st, reader, canonical, d);
    } else {
      forall ds: map<string, Identity> | AcceptedTree(inv.(directories := ds), st, reader, canonical)
        ensures ds.Keys == inv.directories.Keys
      {
        DirectoriesFixed(inv, st, reader, canonical, ds);
      }
    }
  }

  lemma OtherDirectories(inv: Inventory, st: State, reader: Reader, canonical: State -> Bytes, d: string)
    returns (ds: map<string, Identity>)
    requires AcceptedTree(inv, st, reader, canonical) && st.status == AdjudicationPartCompleted
    requires d in Allowed(inv, reader) && !Above(d, FileNames(inv.files))
    ensures AcceptedTree(inv.(directories := ds), st, reader, canonical) && ds.Keys != inv.directories.Keys
  {
    FilesAreFlatOrReviewed(inv, st, reader, canonical);
    ShapeInDirectories(inv, st, reader, canonical, inv.directories);
    hide ProcessingShape, FileNames, Closed, Above, AllowedLike, Allowed;
    var other := Alternative(FileNames(inv.files), inv.directories.Keys, Allowed(inv, reader), d);
    ds := map x | x in other :: inv.root;
    assert ds.Keys == other;
    ShapeInDirectories(inv, st, reader, canonical, ds);
  }

  lemma DirectoriesFixed(inv: Inventory, st: State, reader: Reader, canonical: State -> Bytes, ds: map<string, Identity>)
    requires AcceptedTree(inv, st, reader, canonical) && AcceptedTree(inv.(directories := ds), st, reader, canonical)
    requires st.status == AdjudicationPartCompleted ==>
      forall d :: d in Allowed(inv, reader) ==> Above(d, FileNames(inv.files))
    ensures ds.Keys == inv.directories.Keys
  {
    ShapeInDirectories(inv, st, reader, canonical, inv.directories);
    ShapeInDirectories(inv, st, reader, canonical, ds);
    hide ProcessingShape, FileNames, Closed, Above, AllowedLike, Allowed;
    if st.status == AdjudicationPartCompleted {
      AllAboveFixes(FileNames(inv.files), inv.directories.Keys, Allowed(inv, reader));
      AllAboveFixes(FileNames(inv.files), ds.Keys, Allowed(inv, reader));
    }
  }

  /** What the shape check says of the directories alone. */
  lemma ShapeInDirectories(inv: Inventory, st: State, reader: Reader, canonical: State -> Bytes, ds: map<string, Identity>)
    requires ProcessingShape(inv, st, reader, canonical)
    ensures AllowedLike(Allowed(inv, reader))
    ensures ProcessingShape(inv.(directories := ds), st, reader, canonical) ==> ds.Keys <= Allowed(inv, reader)
    ensures st.status == AdjudicationPartCompleted ==>
      (ProcessingShape(inv.(directories := ds), st, reader, canonical) <==> ds.Keys <= Allowed(inv, reader))
    ensures st.status != AdjudicationPartCompleted && ProcessingShape(inv.(directories := ds), st, reader, canonical) ==>
      ds.Keys == inv.directories.Keys
  {
    AllowedDirectories(reader, inv.files.artifacts[SOURCE_MANIFEST]);
    hide AllowedLike, CompletedOutputs, AllJournals, RequiredOutputs, OptionalOutputs, BaseRequests, RequestShape, Completion,
         PrimaryDerived, AdjudicationDerived;
  }

  // ------------------------------------------------------------ a failing input

  function Same(names: set<string>, raw: Bytes): Contents { map n | n in names :: raw }

  /** A finished adjudication, flat as the observers leave it, with or without
      a directory for reviewed files. */
  function FlatTree(st: State, manifest: Bytes, canonical: State -> Bytes, raw: Bytes, root: Identity, reviewed: bool): Inventory {
    Inventory(Sorted(canonical(st), map[CANDIDATES := raw, SOURCE_MANIFEST := manifest], Same(BaseRequests(st), raw),
                     Same(AllJournals(st), raw), Same(RequiredOutputs(st), raw), Same(PrimaryDerived(), raw)),
              if reviewed then map["reviewed" := root] else map[], root)
  }

  lemma FlatTreeShape(st: State, reader: Reader, manifest: Bytes, canonical: State -> Bytes, raw: Bytes, root: Identity, reviewed: bool)
    requires st.status == AdjudicationPartCompleted && st.primaryParts > 0 && st.adjudicationParts > 0
    requires CompletedOutputs(reader, manifest).Some?
    ensures ProcessingShape(FlatTree(st, manifest, canonical, raw, root, reviewed), st, reader, canonical)
  {
    hide AllJournals, RequiredOutputs, OptionalOutputs, BaseRequests, PrimaryDerived, AdjudicationDerived, Completion,
         CompletedOutputs, FlatTree, RequestShape, DerivedShape, Within;
    FlatTreeKeys(st, manifest, canonical, raw, root, reviewed);
    FlatTreeParts(st, reader, manifest, reviewed);
  }

  function ReviewedOnly(reviewed: bool): set<string> { if reviewed then {"reviewed"} else {} }

  lemma FlatTreeKeys(st: State, manifest: Bytes, canonical: State -> Bytes, raw: Bytes, root: Identity, reviewed: bool)
    ensures var inv := FlatTree(st, manifest, canonical, raw, root, reviewed);
      && inv.files.state == canonical(st)
      && inv.files.artifacts.Keys == {CANDIDATES, SOURCE_MANIFEST} && inv.files.artifacts[SOURCE_MANIFEST] == manifest
      && inv.files.requests.Keys == BaseRequests(st) && inv.files.journals.Keys == AllJournals(st)
      && inv.files.outputs.Keys == RequiredOutputs(st) && inv.files.derived.Keys == PrimaryDerived()
      && inv.directories.Keys == ReviewedOnly(reviewed)
  {
    hide AllJournals, RequiredOutputs, BaseRequests, PrimaryDerived;
  }

  lemma FlatTreeParts(st: State, reader: Reader, manifest: Bytes, reviewed: bool)
    requires st.status == AdjudicationPartCompleted && CompletedOutputs(reader, manifest).Some?
    ensures RequestShape(BaseRequests(st), st)
    ensures Within(RequiredOutputs(st), RequiredOutputs(st), OptionalOutputs(st))
    ensures DerivedShape(PrimaryDerived(), ReviewedOnly(reviewed), st, CompletedOutputs(reader, manifest).value)
  {
    AllowedDirectories(reader, manifest);
    hide RequiredOutputs, OptionalOutputs, BaseRequests, PrimaryDerived, AdjudicationDerived, Completion, CompletedOutputs,
         SeasonLike, Parts;
  }

  /** A failing input: two closed trees with the same files, both accepted,
      one with a directory the other has not.  No digest tells them apart. */
  lemma ReviewedDirectoryEscapes(st: State, reader: Reader, manifest: Bytes, canonical: State -> Bytes, raw: Bytes, root: Identity)
    requires st.status == AdjudicationPartCompleted && st.primaryParts > 0 && st.adjudicationParts > 0
    requires CompletedOutputs(reader, manifest).Some?
    ensures var (a, b) := (FlatTree(st, manifest, canonical, raw, root, false), FlatTree(st, manifest, canonical, raw, root, true));
      && AcceptedTree(a, st, reader, canonical) && AcceptedTree(b, st, reader, canonical)
      && a.files == b.files && a.directories.Keys != b.directories.Keys
  {
    var (a, b) := (FlatTree(st, manifest, canonical, raw, root, false), FlatTree(st, manifest, canonical, raw, root, true));
    FlatTreeShape(st, reader, manifest, canonical, raw, root, false);
    FlatTreeShape(st, reader, manifest, canonical, raw, root, true);
    FlatTreeKeys(st, manifest, canonical, raw, root, false);
    FlatTreeKeys(st, manifest, canonical, raw, root, true);
    assert a.files == b.files;
    hide FlatTree;
    TopParent();
    FlatTreeParents(a, st, reader, canonical);
    hide ProcessingShape, FileNames, Parent, AllJournals, RequiredOutputs, BaseRequests, PrimaryDerived;
    assert "reviewed" in b.directories.Keys && "reviewed" !in a.directories.Keys;
  }

  lemma FlatTreeParents(inv: Inventory, st: State, reader: Reader, canonical: State -> Bytes)
    requires ProcessingShape(inv, st, reader, canonical) && inv.files.derived.Keys == PrimaryDerived()
    ensures forall n :: n in FileNames(inv.files) ==> Parent(n) == "."
  {
    GroupsAreFlat(inv, st, reader, canonical);
    hide ProcessingShape, PrimaryDerived, Parent;
    forall n | n in FileNames(inv.files)
      ensures Parent(n) == "."
    {
      if n in PrimaryDerived() { PrimaryDerivedAreFlat(n); }
      FlatParent(n);
    }
  }
}
