/** The primary-result worker: input shapes, crash points, and the rule that a
    finished run cannot change its outcome. */
module PrimaryProcessing {
  import opened Names
  import opened Groups
  import opened RunState
  import opened Files
  import opened Inventories

  // ------------------------------------------------ reviewed output inventory

  const ALIGNED: string := ".script-aligned.srt"
  const REVIEWED: string := ".automated-reviewed.srt"

  /** What the source manifest says, as far as the worker reads it: the source
      names, and the season printed in a name. */
  datatype Reader = Reader(sources: Bytes -> Option<set<string>>, season: string -> Option<nat>)

  function Pad2(n: nat): string {
    if n < 10 then "0" + Decimal(n) else Decimal(n)
  }

  function SeasonDirectory(season: nat): string { "reviewed/season-" + Pad2(season) }

  function ReviewedFile(name: string, season: nat): string
    requires EndsWith(name, ALIGNED)
  {
    SeasonDirectory(season) + "/" + name[..|name| - |ALIGNED|] + REVIEWED
  }

  predicate SourceOk(reader: Reader, name: string) {
    EndsWith(name, ALIGNED) && reader.season(name).Some?
  }

  datatype ReviewedSet = ReviewedSet(files: set<string>, directories: set<string>)

  function CompletedOutputs(reader: Reader, manifest: Bytes): Option<ReviewedSet> {
    match reader.sources(manifest)
    case None => None
    case Some(sources) =>
      if sources == {} || exists n :: n in sources && !SourceOk(reader, n) then None
      else Some(ReviewedSet(
        set n | n in sources :: ReviewedFile(n, reader.season(n).value),
        {"reviewed"} + set n | n in sources :: SeasonDirectory(reader.season(n).value)))
  }

  /** The loop over the manifest's sources. */
  method CollectCompletedOutputs(reader: Reader, manifest: Bytes) returns (r: Option<ReviewedSet>)
    ensures r == CompletedOutputs(reader, manifest)
  {
    match reader.sources(manifest)
    case None => return None;
    case Some(sources) =>
      if sources == {} { return None; }
      var files: set<string>, directories := {}, {"reviewed"};
      var pending := sources;
      while pending != {}
        invariant pending <= sources
        invariant forall n :: n in sources - pending ==> SourceOk(reader, n)
        invariant files == set n | n in sources - pending :: ReviewedFile(n, reader.season(n).value)
        invariant directories == {"reviewed"} + set n | n in sources - pending :: SeasonDirectory(reader.season(n).value)
      {
        var name :| name in pending;
        if !SourceOk(reader, name) { return None; }
        var season := reader.season(name).value;
        files := files + {ReviewedFile(name, season)};
        directories := directories + {SeasonDirectory(season)};
        pending := pending - {name};
      }
      assert sources - pending == sources;
      return Some(ReviewedSet(files, directories));
  }

  /** Every reviewed output lies under `reviewed`, so none is a part name, a
      fixed name or a file at the top level. */
  lemma OutputsAreUnderReviewed(reader: Reader, manifest: Bytes)
    requires CompletedOutputs(reader, manifest).Some?
    ensures forall n :: n in CompletedOutputs(reader, manifest).value.files ==> StartsWith(n, "reviewed/")
    ensures forall n :: n in CompletedOutputs(reader, manifest).value.directories ==> StartsWith(n, "reviewed")
  {
    var sources := reader.sources(manifest).value;
    forall n | n in sources
      ensures StartsWith(ReviewedFile(n, reader.season(n).value), "reviewed/")
      ensures StartsWith(SeasonDirectory(reader.season(n).value), "reviewed")
    {
      assert "reviewed/season-"[..9] == "reviewed/" && "reviewed/season-"[..8] == "reviewed";
    }
  }

  // -------------------------------------------------------------- snapshots

  /** Directories are filed with the derived files, under `name/`. */
  datatype Snapshot = Snapshot(state: Bytes, artifacts: Contents, journals: Contents,
                               outputs: Contents, derived: Contents)

  function Slash(d: string): string { d + "/" }

  function SlashAll(directories: set<string>): set<string> {
    set d | d in directories :: Slash(d)
  }

  function DirectoryEntries(directories: set<string>): Contents {
    map k | k in SlashAll(directories) :: []
  }

  lemma EntriesInsert(done: set<string>, d: string)
    ensures DirectoryEntries(done + {d}) == DirectoryEntries(done)[Slash(d) := []]
  {
    assert SlashAll(done + {d}) == SlashAll(done) + {Slash(d)};
  }

  lemma NoEntries()
    ensures DirectoryEntries({}) == map[]
  {
  }

  function SnapshotOf(disk: Contents, directories: set<string>): Snapshot
    requires RUN_STATE in disk
  {
    var s := SortedBy(disk, PrimaryWorkerGroup);
    Snapshot(s.state, s.artifacts, s.journals, s.outputs, s.derived + DirectoryEntries(directories))
  }

  function Limit(name: string): nat { if name == RUN_STATE then STATE_MAX else FILE_MAX }

  method AddDirectories(files: Contents, directories: set<string>) returns (derived: Contents)
    ensures derived == files + DirectoryEntries(directories)
  {
    hide DirectoryEntries, Slash;
    NoEntries();
    var pending, done: set<string> := directories, {};
    derived := files;
    while pending != {}
      invariant pending + done == directories
      invariant derived == files + DirectoryEntries(done)
    {
      var d :| d in pending;
      EntriesInsert(done, d);
      derived, pending, done := derived[Slash(d) := []], pending - {d}, done + {d};
    }
    assert done == directories;
  }

  method TakeSnapshot(disk: Contents, directories: set<string>) returns (r: Option<Snapshot>)
    ensures r.Some? <==> Readable(disk, Limit)
    ensures r.Some? ==> r.value == SnapshotOf(disk, directories)
  {
    var contents := ReadAll(disk, Limit);
    if contents.None? { return None; }
    WorkerKeepsStateApart();
    var s := SortFiles(contents.value, PrimaryWorkerGroup);
    var derived := AddDirectories(s.derived, directories);
    return Some(Snapshot(s.state, s.artifacts, s.journals, s.outputs, derived));
  }

  lemma WorkerKeepsStateApart()
    ensures KeepsStateApart(PrimaryWorkerGroup)
  {
  }

  // ------------------------------------------------------------------ shape

  /** The regular expression for an adjudication request: exactly four digits. */
  function MatchAdjudicationRequest(name: string): Option<nat> {
    var pre, suf := Prefix(Adjudication, Request), Suffix(Request);
    if |name| == |pre| + 4 + |suf| && StartsWith(name, pre) && EndsWith(name, suf)
       && AllDigits(name[|pre|..|pre| + 4])
    then Some(Value(name[|pre|..|pre| + 4])) else None
  }

  /** A name the retry rule admits: a primary-derived file, or a request part
      whose number is between one and the candidate count. */
  predicate Retryable(name: string, candidates: nat) {
    || name in PrimaryDerived()
    || (var p := MatchAdjudicationRequest(name); p.Some? && 1 <= p.value <= candidates)
  }

  function ExpectedArtifacts(st: State): set<string> {
    {CANDIDATES, SOURCE_MANIFEST} + Parts(Primary, Request, 1, st.primaryParts)
  }

  function ExpectedJournals(st: State): set<string> {
    Parts(Primary, Intent, 1, st.primaryParts) + Parts(Primary, Completed, 1, st.primaryParts)
  }

  function PreparedDerived(st: State): set<string> {
    PrimaryDerived() + Parts(Adjudication, Request, 1, st.adjudicationParts)
  }

  predicate OutputsOk(names: set<string>, st: State) {
    Within(names, Parts(Primary, Output, 1, st.primaryParts), Parts(Primary, ApiErrors, 1, st.primaryParts))
  }

  predicate DerivedOk(names: set<string>, st: State, completed: Option<ReviewedSet>) {
    match st.status
    case PrimaryPartCompleted => forall n :: n in names ==> Retryable(n, st.candidateCount)
    case AdjudicationPrepared =>
      names == PreparedDerived(st)
    case Done =>
      completed.Some? &&
      names == PrimaryDerived() + {REVIEW_LEDGER, CALIBRATION} + completed.value.files
               + SlashAll(completed.value.directories)
    case _ => names == {}
  }

  predicate Shape(s: Snapshot, st: State, reader: Reader) {
    && s.artifacts.Keys == ExpectedArtifacts(st)
    && s.journals.Keys == ExpectedJournals(st)
    && OutputsOk(s.outputs.Keys, st)
    && DerivedOk(s.derived.Keys, st, CompletedOutputs(reader, s.artifacts[SOURCE_MANIFEST]))
  }

  /** The shape check: the retry branch grows the allowed set name by name. */
  method ValidateShape(s: Snapshot, st: State, reader: Reader) returns (ok: bool)
    ensures ok <==> Shape(s, st, reader)
  {
    hide PartName, Retryable, Parts, ExpectedJournals, PreparedDerived, OutputsOk, PrimaryDerived, SlashAll, CompletedOutputs;
    if s.artifacts.Keys != ExpectedArtifacts(st) || s.journals.Keys != ExpectedJournals(st)
       || !OutputsOk(s.outputs.Keys, st) {
      return false;
    }
    var allowed: set<string> := {};
    match st.status {
      case AdjudicationPrepared =>
        allowed := PreparedDerived(st);
      case Done =>
        var outputs := CollectCompletedOutputs(reader, s.artifacts[SOURCE_MANIFEST]);
        if outputs.None? { return false; }
        allowed := PrimaryDerived() + {REVIEW_LEDGER, CALIBRATION} + outputs.value.files
                   + SlashAll(outputs.value.directories);
      case PrimaryPartCompleted =>
        var pending := s.derived.Keys;
        while pending != {}
          invariant pending <= s.derived.Keys
          invariant allowed == set n | n in s.derived.Keys - pending && Retryable(n, st.candidateCount)
        {
          var name :| name in pending;
          if Retryable(name, st.candidateCount) { allowed := allowed + {name}; }
          pending := pending - {name};
        }
        assert allowed == set n | n in s.derived.Keys && Retryable(n, st.candidateCount);
        assert s.derived.Keys == allowed ==> forall n :: n in s.derived.Keys ==> n in allowed;
      case _ =>
    }
    return s.derived.Keys == allowed;
  }

  lemma RequestMatches(p: nat)
    ensures MatchAdjudicationRequest(PartName(Adjudication, p, Request)) ==
            if p <= 9999 then Some(p) else None
  {
    var pre, digits, suf := Prefix(Adjudication, Request), Pad4(p), Suffix(Request);
    var name := PartName(Adjudication, p, Request);
    assert name == pre + digits + suf;
    ValuePad4(p);
    DecimalWidth(p);
    assert |digits| == 4 <==> p <= 9999;
    if |digits| == 4 {
      assert name[|pre|..|pre| + 4] == digits;
      assert name[..|pre|] == pre && name[|name| - |suf|..] == suf;
    }
  }

  /** The retry pattern recovers the part number exactly, from 1 to 9999. */
  lemma MatchIsPartName(name: string, p: nat)
    ensures MatchAdjudicationRequest(name) == Some(p) <==>
            p <= 9999 && name == PartName(Adjudication, p, Request)
  {
    if MatchAdjudicationRequest(name) == Some(p) {
      var pre, suf := Prefix(Adjudication, Request), Suffix(Request);
      var digits := name[|pre|..|pre| + 4];
      Pad4Value(digits);
      assert name == name[..|pre|] + digits + name[|pre| + 4..];
      assert name[..|pre|] == pre && name[|name| - |suf|..] == suf;
    }
    if p <= 9999 { RequestMatches(p); }
  }
}
