/** What a checkpoint of digests pins down.  An observer and both processing
    workers compare one digest of the state and one of each group with values
    supplied from outside; together these fix the whole directory. */
module Binding {
  import opened Names
  import opened Groups
  import opened RunState
  import opened Inventories
  import opened Files
  import opened Digest
  import opened Observers
  import opened PrimaryProcessing

  /** The supplied digests; an absent one is an unset variable. */
  datatype Expected = Expected(state: Option<string>, artifacts: Option<string>, journals: Option<string>,
                               outputs: Option<string>, derived: Option<string>, request: Option<string>)

  /** Sixty-four lower-case hexadecimal digits. */
  predicate IsHash(s: string) {
    |s| == 64 && forall c :: c in s ==> c in "0123456789abcdef"
  }

  predicate Complete(e: Expected) {
    e.state.Some? && e.artifacts.Some? && e.journals.Some? && e.outputs.Some? && e.derived.Some? && e.request.Some?
  }

  ghost predicate DigestIs(m: Contents, expected: string, hash: Bytes -> string) {
    IsHash(expected) && Framable(m) && hash(Stream(m)) == expected
  }

  predicate FileIs(disk: Contents, name: string, limit: nat, expected: string, hash: Bytes -> string) {
    name in disk && 0 < |disk[name]| <= limit && IsHash(expected) && hash(disk[name]) == expected
  }

  function RequestName(st: State): string { PartName(Adjudication, st.adjudicationCompleted + 1, Request) }

  /** Everything the generic observer demands before it polls. */
  ghost predicate CheckpointHolds(disk: Contents, st: State, e: Expected, hash: Bytes -> string) {
    && Complete(e) && NextCheckpoint(st)
    && FileIs(disk, RUN_STATE, STATE_MAX, e.state.value, hash)
    && FileIs(disk, RequestName(st), FILE_MAX, e.request.value, hash)
    && NextObserver(st).Accepts(disk.Keys)
    && Readable(disk, Limit)
    && DigestIs(Of(disk, ObserverGroup, Artifacts), e.artifacts.value, hash)
    && DigestIs(Of(disk, ObserverGroup, Journals), e.journals.value, hash)
    && DigestIs(Of(disk, ObserverGroup, Outputs), e.outputs.value, hash)
    && DigestIs(Of(disk, ObserverGroup, Derived), e.derived.value, hash)
  }

  method CheckDigest(m: Contents, expected: string, hash: Bytes -> string) returns (ok: bool)
    ensures ok <==> DigestIs(m, expected, hash)
  {
    var actual := SetDigest(m, hash);
    return IsHash(expected) && actual == Some(expected);
  }

  lemma ObserverKeepsStateApart()
    ensures KeepsStateApart(ObserverGroup)
  {
  }

  /** The observer's checkpoint, check by check. */
  method ValidateCheckpoint(disk: Contents, st: State, e: Expected, hash: Bytes -> string) returns (ok: bool)
    ensures ok <==> CheckpointHolds(disk, st, e, hash)
  {
    hide DigestIs, FileIs, NextObserver, NextCheckpoint, ObserverGroup, RequestName;
    if !Complete(e) || !NextCheckpoint(st) { return false; }
    if !FileIs(disk, RUN_STATE, STATE_MAX, e.state.value, hash) { return false; }
    if !FileIs(disk, RequestName(st), FILE_MAX, e.request.value, hash) { return false; }
    if !NextObserver(st).Accepts(disk.Keys) { return false; }
    var contents := ReadAll(disk, Limit);
    if contents.None? { return false; }
    ObserverKeepsStateApart();
    var groups := SortFiles(contents.value, ObserverGroup);
    var artifacts := CheckDigest(groups.artifacts, e.artifacts.value, hash);
    var journals := CheckDigest(groups.journals, e.journals.value, hash);
    var outputs := CheckDigest(groups.outputs, e.outputs.value, hash);
    var derived := CheckDigest(groups.derived, e.derived.value, hash);
    return artifacts && journals && outputs && derived;
  }

  // ----------------------------------------------------------------- pinning

  /** What is digested for one directory does not collide with what is digested
      for another, place by place.  A hash into finitely many digests has
      collisions; nothing is asked of it elsewhere. */
  predicate NoCollision(xs: seq<Bytes>, ys: seq<Bytes>, hash: Bytes -> string) {
    |xs| == |ys| && forall i :: 0 <= i < |xs| ==> hash(xs[i]) == hash(ys[i]) ==> xs[i] == ys[i]
  }

  ghost function GroupsDigested(f: Sorted): seq<Bytes> {
    [f.state, Stream(f.artifacts), Stream(f.requests), Stream(f.journals), Stream(f.outputs), Stream(f.derived)]
  }

  /** The slots, one by one. */
  lemma Slots(f: Sorted, g: Sorted, hash: Bytes -> string)
    requires NoCollision(GroupsDigested(f), GroupsDigested(g), hash)
    ensures hash(f.state) == hash(g.state) ==> f.state == g.state
    ensures hash(Stream(f.artifacts)) == hash(Stream(g.artifacts)) ==> Stream(f.artifacts) == Stream(g.artifacts)
    ensures hash(Stream(f.requests)) == hash(Stream(g.requests)) ==> Stream(f.requests) == Stream(g.requests)
    ensures hash(Stream(f.journals)) == hash(Stream(g.journals)) ==> Stream(f.journals) == Stream(g.journals)
    ensures hash(Stream(f.outputs)) == hash(Stream(g.outputs)) ==> Stream(f.outputs) == Stream(g.outputs)
    ensures hash(Stream(f.derived)) == hash(Stream(g.derived)) ==> Stream(f.derived) == Stream(g.derived)
  {
    hide Stream;
    var (xs, ys) := (GroupsDigested(f), GroupsDigested(g));
    forall i | 0 <= i < 6
      ensures hash(xs[i]) == hash(ys[i]) ==> xs[i] == ys[i]
    {
    }
    assert xs[0] == f.state && ys[0] == g.state;
    assert xs[1] == Stream(f.artifacts) && ys[1] == Stream(g.artifacts);
    assert xs[2] == Stream(f.requests) && ys[2] == Stream(g.requests);
    assert xs[3] == Stream(f.journals) && ys[3] == Stream(g.journals);
    assert xs[4] == Stream(f.outputs) && ys[4] == Stream(g.outputs);
    assert xs[5] == Stream(f.derived) && ys[5] == Stream(g.derived);
  }

  lemma DigestPins(a: Contents, b: Contents, expected: string, hash: Bytes -> string)
    requires hash(Stream(a)) == hash(Stream(b)) ==> Stream(a) == Stream(b)
    requires DigestIs(a, expected, hash) && DigestIs(b, expected, hash)
    ensures a == b
  {
    StreamInjective(a, b);
  }

  lemma FilePins(a: Contents, b: Contents, name: string, limit: nat, expected: string, hash: Bytes -> string)
    requires name in a && name in b && (hash(a[name]) == hash(b[name]) ==> a[name] == b[name])
    requires FileIs(a, name, limit, expected, hash) && FileIs(b, name, limit, expected, hash)
    ensures a[name] == b[name]
  {
  }

  lemma StateIsThere(disk: Contents, st: State, e: Expected, hash: Bytes -> string)
    requires CheckpointHolds(disk, st, e, hash)
    ensures RUN_STATE in disk
  {
    hide DigestIs, NextObserver, Readable, NextCheckpoint;
  }

  /** Observers file nothing under requests. */
  lemma NoRequestGroup(a: Contents)
    ensures Of(a, ObserverGroup, Requests) == map[]
  {
  }

  /** One set of expected digests fits at most one directory, byte for byte:
      nothing outside the digested groups can differ, unless two of the digested
      byte strings collide. */
  lemma CheckpointPinsTheDirectory(a: Contents, st: State, b: Contents, st': State, e: Expected, hash: Bytes -> string)
    requires CheckpointHolds(a, st, e, hash) && CheckpointHolds(b, st', e, hash)
    requires NoCollision(GroupsDigested(SortedBy(a, ObserverGroup)), GroupsDigested(SortedBy(b, ObserverGroup)), hash)
    ensures a == b
  {
    hide DigestIs, FileIs, NextObserver, Readable, NextCheckpoint, ObserverGroup, Of, Stream, NoCollision;
    StateIsThere(a, st, e, hash);
    StateIsThere(b, st', e, hash);
    Slots(SortedBy(a, ObserverGroup), SortedBy(b, ObserverGroup), hash);
    FilePins(a, b, RUN_STATE, STATE_MAX, e.state.value, hash);
    DigestPins(Of(a, ObserverGroup, Artifacts), Of(b, ObserverGroup, Artifacts), e.artifacts.value, hash);
    DigestPins(Of(a, ObserverGroup, Journals), Of(b, ObserverGroup, Journals), e.journals.value, hash);
    DigestPins(Of(a, ObserverGroup, Outputs), Of(b, ObserverGroup, Outputs), e.outputs.value, hash);
    DigestPins(Of(a, ObserverGroup, Derived), Of(b, ObserverGroup, Derived), e.derived.value, hash);
    NoRequestGroup(a);
    NoRequestGroup(b);
    ObserverKeepsStateApart();
    GroupsDetermineContents(a, b, ObserverGroup);
  }

  // ------------------------------------------------------ the primary observer

  datatype PrimaryExpected = PrimaryExpected(part: Option<string>, state: Option<string>, artifacts: Option<string>,
                                             journals: Option<string>, request: Option<string>)

  predicate Unbound(e: PrimaryExpected) {
    e.part.None? && e.state.None? && e.artifacts.None? && e.journals.None? && e.request.None?
  }

  predicate Bound(e: PrimaryExpected) {
    e.part.Some? && e.state.Some? && e.artifacts.Some? && e.journals.Some? && e.request.Some?
  }

  /** The part a bound checkpoint can be for: the first or the second. */
  function TargetPart(e: PrimaryExpected): Option<nat> {
    if e.part == Some("1") then Some(1) else if e.part == Some("2") then Some(2) else None
  }

  function PrimaryJournals(disk: Contents): Contents {
    map n | n in disk && StartsWith(n, ".primary-part-") :: disk[n]
  }

  function PrimaryRest(disk: Contents): Contents {
    map n | n in disk && !StartsWith(n, ".primary-part-") :: disk[n]
  }

  /** What the primary observer demands before it polls: nothing when nothing
      is bound, everything otherwise. */
  ghost predicate PrimaryCheckpointHolds(disk: Contents, st: State, e: PrimaryExpected, hash: Bytes -> string) {
    || Unbound(e)
    || (&& Bound(e) && TargetPart(e).Some?
        && (var part := TargetPart(e).value;
            && st.status == PrimarySubmitted && st.primaryCompleted == part - 1 && st.primaryParts >= part
            && FileIs(disk, RUN_STATE, STATE_MAX, e.state.value, hash)
            && FileIs(disk, PartName(Primary, part, Request), FILE_MAX, e.request.value, hash)
            && PrimaryObserver(st, part).Accepts(disk.Keys)
            && Readable(disk, Limit)
            && DigestIs(PrimaryRest(disk), e.artifacts.value, hash)
            && DigestIs(PrimaryJournals(disk), e.journals.value, hash)))
  }

  method ValidatePrimaryCheckpoint(disk: Contents, st: State, e: PrimaryExpected, hash: Bytes -> string) returns (ok: bool)
    ensures ok <==> PrimaryCheckpointHolds(disk, st, e, hash)
  {
    hide DigestIs, FileIs, PrimaryObserver, PrimaryRest, PrimaryJournals, PartName;
    if Unbound(e) { return true; }
    if !Bound(e) || TargetPart(e).None? { return false; }
    var part := TargetPart(e).value;
    if st.status != PrimarySubmitted || st.primaryCompleted != part - 1 || st.primaryParts < part { return false; }
    if !FileIs(disk, RUN_STATE, STATE_MAX, e.state.value, hash) { return false; }
    if !FileIs(disk, PartName(Primary, part, Request), FILE_MAX, e.request.value, hash) { return false; }
    if !PrimaryObserver(st, part).Accepts(disk.Keys) { return false; }
    var contents := ReadAll(disk, Limit);
    if contents.None? { return false; }
    var artifacts := CheckDigest(PrimaryRest(contents.value), e.artifacts.value, hash);
    var journals := CheckDigest(PrimaryJournals(contents.value), e.journals.value, hash);
    return artifacts && journals;
  }

  lemma TwoHalves(a: Contents, b: Contents)
    requires PrimaryRest(a) == PrimaryRest(b) && PrimaryJournals(a) == PrimaryJournals(b)
    ensures a == b
  {
    HalfIn(a, b);
    HalfIn(b, a);
  }

  lemma HalfIn(a: Contents, b: Contents)
    requires PrimaryRest(a) == PrimaryRest(b) && PrimaryJournals(a) == PrimaryJournals(b)
    ensures forall n :: n in a ==> n in b && a[n] == b[n]
  {
    forall n | n in a
      ensures n in b && a[n] == b[n]
    {
      if StartsWith(n, ".primary-part-") {
        assert n in PrimaryJournals(a);
      } else {
        assert n in PrimaryRest(a);
      }
    }
  }

  /** Two digests suffice here: a bound checkpoint fits at most one directory,
      unless two digested byte strings collide. */
  lemma PrimaryCheckpointPinsTheDirectory(a: Contents, st: State, b: Contents, st': State, e: PrimaryExpected, hash: Bytes -> string)
    requires !Unbound(e) && PrimaryCheckpointHolds(a, st, e, hash) && PrimaryCheckpointHolds(b, st', e, hash)
    requires NoCollision([Stream(PrimaryRest(a)), Stream(PrimaryJournals(a))],
                         [Stream(PrimaryRest(b)), Stream(PrimaryJournals(b))], hash)
    ensures a == b
  {
    hide DigestIs, FileIs, PrimaryObserver, Readable, PrimaryRest, PrimaryJournals, PartName, Stream;
    var (xs, ys) := ([Stream(PrimaryRest(a)), Stream(PrimaryJournals(a))], [Stream(PrimaryRest(b)), Stream(PrimaryJournals(b))]);
    assert xs[0] == Stream(PrimaryRest(a)) && ys[0] == Stream(PrimaryRest(b));
    assert xs[1] == Stream(PrimaryJournals(a)) && ys[1] == Stream(PrimaryJournals(b));
    DigestPins(PrimaryRest(a), PrimaryRest(b), e.artifacts.value, hash);
    DigestPins(PrimaryJournals(a), PrimaryJournals(b), e.journals.value, hash);
    TwoHalves(a, b);
  }

  /** Which checkpoints can be bound at all: those of the first or second part
      with the names the observer wants, readable, and framed.  From two
      completed parts on the primary observer polls without a binding or not
      at all. */
  lemma BindableExactly(disk: Contents, st: State, hash: Bytes -> string)
    requires forall b :: IsHash(hash(b))
    ensures (exists e :: !Unbound(e) && PrimaryCheckpointHolds(disk, st, e, hash)) <==>
      && st.status == PrimarySubmitted && st.primaryCompleted <= 1 && st.primaryCompleted < st.primaryParts
      && PrimaryObserver(st, st.primaryCompleted + 1).Accepts(disk.Keys) && Readable(disk, Limit)
      && Framable(PrimaryRest(disk)) && Framable(PrimaryJournals(disk))
  {
    hide PrimaryRest, PrimaryJournals, PartName, Framable, Stream, IsHash, Readable, PrimaryObserver, FileIs, Within;
    if && st.status == PrimarySubmitted && st.primaryCompleted <= 1 && st.primaryCompleted < st.primaryParts
       && PrimaryObserver(st, st.primaryCompleted + 1).Accepts(disk.Keys) && Readable(disk, Limit)
       && Framable(PrimaryRest(disk)) && Framable(PrimaryJournals(disk))
    {
      var part := st.primaryCompleted + 1;
      BindableFiles(disk, st, part, hash);
      var e := PrimaryExpected(Some(if part == 1 then "1" else "2"), Some(hash(disk[RUN_STATE])),
                               Some(hash(Stream(PrimaryRest(disk)))), Some(hash(Stream(PrimaryJournals(disk)))),
                               Some(hash(disk[PartName(Primary, part, Request)])));
      assert TargetPart(e) == Some(part);
      assert !Unbound(e) && PrimaryCheckpointHolds(disk, st, e, hash);
    }
  }

  lemma BindableFiles(disk: Contents, st: State, part: nat, hash: Bytes -> string)
    requires forall b :: IsHash(hash(b))
    requires 1 <= part <= st.primaryParts && PrimaryObserver(st, part).Accepts(disk.Keys) && Readable(disk, Limit)
    ensures RUN_STATE in disk && FileIs(disk, RUN_STATE, STATE_MAX, hash(disk[RUN_STATE]), hash)
    ensures var r := PartName(Primary, part, Request); r in disk && FileIs(disk, r, FILE_MAX, hash(disk[r]), hash)
  {
    hide PartName, Total, IsHash;
    assert PartName(Primary, part, Request) in Parts(Primary, Request, 1, st.primaryParts);
  }

  // ------------------------------------------------- snapshots with directories

  /** The primary-result worker's binding: five digests over its snapshot. */
  ghost predicate SnapshotBound(s: Snapshot, e: Expected, hash: Bytes -> string) {
    && e.state.Some? && e.artifacts.Some? && e.journals.Some? && e.outputs.Some? && e.derived.Some?
    && IsHash(e.state.value) && hash(s.state) == e.state.value
    && DigestIs(s.artifacts, e.artifacts.value, hash) && DigestIs(s.journals, e.journals.value, hash)
    && DigestIs(s.outputs, e.outputs.value, hash) && DigestIs(s.derived, e.derived.value, hash)
  }

  method ValidateBinding(s: Snapshot, e: Expected, hash: Bytes -> string) returns (ok: bool)
    ensures ok <==> SnapshotBound(s, e, hash)
  {
    if e.state.None? || e.artifacts.None? || e.journals.None? || e.outputs.None? || e.derived.None? { return false; }
    if !IsHash(e.state.value) || hash(s.state) != e.state.value { return false; }
    hide DigestIs;
    var artifacts := CheckDigest(s.artifacts, e.artifacts.value, hash);
    var journals := CheckDigest(s.journals, e.journals.value, hash);
    var outputs := CheckDigest(s.outputs, e.outputs.value, hash);
    var derived := CheckDigest(s.derived, e.derived.value, hash);
    return artifacts && journals && outputs && derived;
  }

  /** No file of a file system has a name ending in a slash. */
  predicate PlainFiles(disk: Contents) {
    forall n :: n in disk ==> n != "" && n[|n| - 1] != '/'
  }

  lemma DirectoryKeys(directories: set<string>, k: string)
    ensures k in DirectoryEntries(directories) <==> |k| > 0 && k[|k| - 1] == '/' && k[..|k| - 1] in directories
  {
    if |k| > 0 && k[|k| - 1] == '/' {
      assert k == Slash(k[..|k| - 1]);
    }
    if k in SlashAll(directories) {
      var d :| d in directories && k == Slash(d);
      assert k[..|k| - 1] == d;
    }
  }

  /** Files and directories share one map without losing each other. */
  lemma EntriesSeparate(f: Contents, f': Contents, d: set<string>, d': set<string>)
    requires PlainFiles(f) && PlainFiles(f')
    requires f + DirectoryEntries(d) == f' + DirectoryEntries(d')
    ensures f == f' && d == d'
  {
    FilesSurvive(f, f', d, d');
    FilesSurvive(f', f, d', d);
    DirectoriesSurvive(f, f', d, d');
    DirectoriesSurvive(f', f, d', d);
  }

  lemma FilesSurvive(f: Contents, f': Contents, d: set<string>, d': set<string>)
    requires PlainFiles(f) && PlainFiles(f')
    requires f + DirectoryEntries(d) == f' + DirectoryEntries(d')
    ensures forall n :: n in f ==> n in f' && f[n] == f'[n]
  {
    forall n | n in f
      ensures n in f' && f[n] == f'[n]
    {
      DirectoryKeys(d, n);
      DirectoryKeys(d', n);
      hide DirectoryEntries;
      assert (f + DirectoryEntries(d))[n] == f[n];
    }
  }

  lemma DirectoriesSurvive(f: Contents, f': Contents, d: set<string>, d': set<string>)
    requires PlainFiles(f) && PlainFiles(f')
    requires f + DirectoryEntries(d) == f' + DirectoryEntries(d')
    ensures d <= d'
  {
    forall x | x in d
      ensures x in d'
    {
      var k := Slash(x);
      assert k[..|k| - 1] == x && k[|k| - 1] == '/';
      DirectoryKeys(d, k);
      DirectoryKeys(d', k);
      hide DirectoryEntries;
      assert k in f + DirectoryEntries(d);
    }
  }

  lemma NoPrimaryRequestGroup(a: Contents)
    ensures Of(a, PrimaryWorkerGroup, Requests) == map[]
  {
  }

  lemma OfPlain(a: Contents, g: Group)
    requires PlainFiles(a)
    ensures PlainFiles(Of(a, PrimaryWorkerGroup, g))
  {
  }

  ghost function SnapshotDigested(s: Snapshot): seq<Bytes> {
    GroupsDigested(Sorted(s.state, s.artifacts, map[], s.journals, s.outputs, s.derived))
  }

  /** One set of digests fits at most one tree, files and directories, unless
      two digested byte strings collide. */
  lemma BindingPinsTheTree(a: Contents, d: set<string>, b: Contents, d': set<string>, e: Expected, hash: Bytes -> string)
    requires RUN_STATE in a && RUN_STATE in b && PlainFiles(a) && PlainFiles(b)
    requires SnapshotBound(SnapshotOf(a, d), e, hash) && SnapshotBound(SnapshotOf(b, d'), e, hash)
    requires NoCollision(SnapshotDigested(SnapshotOf(a, d)), SnapshotDigested(SnapshotOf(b, d')), hash)
    ensures a == b && d == d'
  {
    hide DigestIs, PrimaryWorkerGroup, PlainFiles, DirectoryEntries, Stream, NoCollision, GroupsDigested;
    var (s, t) := (SnapshotOf(a, d), SnapshotOf(b, d'));
    Slots(Sorted(s.state, s.artifacts, map[], s.journals, s.outputs, s.derived),
          Sorted(t.state, t.artifacts, map[], t.journals, t.outputs, t.derived), hash);
    DigestPins(s.artifacts, t.artifacts, e.artifacts.value, hash);
    DigestPins(s.journals, t.journals, e.journals.value, hash);
    DigestPins(s.outputs, t.outputs, e.outputs.value, hash);
    DigestPins(s.derived, t.derived, e.derived.value, hash);
    OfPlain(a, Derived);
    OfPlain(b, Derived);
    EntriesSeparate(Of(a, PrimaryWorkerGroup, Derived), Of(b, PrimaryWorkerGroup, Derived), d, d');
    NoPrimaryRequestGroup(a);
    NoPrimaryRequestGroup(b);
    WorkerKeepsStateApart();
    GroupsDetermineContents(a, b, PrimaryWorkerGroup);
  }

  // --------------------------------- the adjudication-result worker's binding

  /** Six digests, the requests on their own; none of a directory. */
  ghost predicate SortedBound(f: Sorted, e: Expected, hash: Bytes -> string) {
    && Complete(e) && IsHash(e.state.value) && hash(f.state) == e.state.value
    && DigestIs(f.artifacts, e.artifacts.value, hash) && DigestIs(f.requests, e.request.value, hash)
    && DigestIs(f.journals, e.journals.value, hash) && DigestIs(f.outputs, e.outputs.value, hash)
    && DigestIs(f.derived, e.derived.value, hash)
  }

  lemma SortedBindingPinsTheFiles(a: Contents, b: Contents, e: Expected, hash: Bytes -> string)
    requires RUN_STATE in a && RUN_STATE in b
    requires SortedBound(SortedBy(a, AdjudicationWorkerGroup), e, hash) && SortedBound(SortedBy(b, AdjudicationWorkerGroup), e, hash)
    requires NoCollision(GroupsDigested(SortedBy(a, AdjudicationWorkerGroup)), GroupsDigested(SortedBy(b, AdjudicationWorkerGroup)), hash)
    ensures a == b
  {
    hide DigestIs, AdjudicationWorkerGroup, IsHash, Stream, NoCollision, GroupsDigested;
    var (s, t) := (SortedBy(a, AdjudicationWorkerGroup), SortedBy(b, AdjudicationWorkerGroup));
    Slots(s, t, hash);
    DigestPins(s.artifacts, t.artifacts, e.artifacts.value, hash);
    DigestPins(s.requests, t.requests, e.request.value, hash);
    DigestPins(s.journals, t.journals, e.journals.value, hash);
    DigestPins(s.outputs, t.outputs, e.outputs.value, hash);
    DigestPins(s.derived, t.derived, e.derived.value, hash);
    WorkerPathsKeepStateApart();
    GroupsDetermineContents(a, b, AdjudicationWorkerGroup);
  }

  lemma WorkerPathsKeepStateApart()
    ensures KeepsStateApart(AdjudicationWorkerGroup)
  {
  }
}
