/** Which digest is held against which files: each expected value has its own
    slot, and a checkpoint accepts the values of its directory and no others. */
module BindingSlots {
  import opened Names
  import opened Groups
  import opened RunState
  import opened Inventories
  import opened Files
  import opened Digest
  import opened Observers
  import opened PrimaryProcessing
  import opened Binding

  // ---------------------------------------------- groups, told by their names

  predicate Dotted(n: string) { |n| >= 1 && n[0] == '.' }

  predicate Ends(n: string, t: string) { |n| >= |t| && n[|n| - |t|..] == t }

  predicate OutputName(n: string) { Ends(n, "-output.jsonl") || Ends(n, "-api-errors.jsonl") }

  predicate ArtifactName(n: string) { Ends(n, "-requests.jsonl") || n == "candidates.jsonl" || n == "source-manifest.json" }

  /** The four groups of an adjudication observer. */
  function JournalFiles(files: Contents): Contents {
    map n | n in files && n != "run-state.json" && Dotted(n) :: files[n]
  }

  function OutputFiles(files: Contents): Contents {
    map n | n in files && n != "run-state.json" && !Dotted(n) && OutputName(n) :: files[n]
  }

  function ArtifactFiles(files: Contents): Contents {
    map n | n in files && n != "run-state.json" && !Dotted(n) && !OutputName(n) && ArtifactName(n) :: files[n]
  }

  function DerivedFiles(files: Contents): Contents {
    map n | n in files && n != "run-state.json" && !Dotted(n) && !OutputName(n) && !ArtifactName(n) :: files[n]
  }

  lemma ObserverGroups(files: Contents)
    ensures Of(files, ObserverGroup, Journals) == JournalFiles(files)
    ensures Of(files, ObserverGroup, Outputs) == OutputFiles(files)
    ensures Of(files, ObserverGroup, Artifacts) == ArtifactFiles(files)
    ensures Of(files, ObserverGroup, Derived) == DerivedFiles(files)
  {
    forall n: string { ObserverGroupOf(n); }
    hide ObserverGroup, Dotted, OutputName, ArtifactName;
  }

  lemma ObserverGroupOf(n: string)
    ensures ObserverGroup(n) ==
      if n == "run-state.json" then StateFile else if Dotted(n) then Journals else if OutputName(n) then Outputs
      else if ArtifactName(n) then Artifacts else Derived
  {
    StartsWithDot(n);
  }

  // ---------------------------------------------------- the generic observer

  /** The observer accepts the digests of its directory, each in its own slot,
      and no other values. */
  lemma CheckpointExactly(files: Contents, st: State, e: Expected, hash: Bytes -> string)
    requires forall b :: IsHash(hash(b))
    ensures CheckpointHolds(files, st, e, hash) <==>
      && NextCheckpoint(st) && NextObserver(st).Accepts(files.Keys) && Readable(files, Limit)
      && Framable(JournalFiles(files)) && Framable(OutputFiles(files))
      && Framable(ArtifactFiles(files)) && Framable(DerivedFiles(files))
      && "run-state.json" in files
      && (var request := "adjudication-part-" + Pad4(st.adjudicationCompleted + 1) + "-requests.jsonl";
          && request in files
          && e == Expected(
               state := Some(hash(files["run-state.json"])),
               artifacts := Some(hash(Stream(ArtifactFiles(files)))),
               journals := Some(hash(Stream(JournalFiles(files)))),
               outputs := Some(hash(Stream(OutputFiles(files)))),
               derived := Some(hash(Stream(DerivedFiles(files)))),
               request := Some(hash(files[request]))))
  {
    hide Of, ObserverGroup, JournalFiles, OutputFiles, ArtifactFiles, DerivedFiles, Stream, Framable, IsHash, NextObserver,
         NextCheckpoint, Readable, Pad4, PartName, CheckpointHolds;
    ObserverGroups(files);
    RequestSpelled(st.adjudicationCompleted + 1);
    GroupSlots(files, st, e, hash);
  }

  lemma GroupSlots(files: Contents, st: State, e: Expected, hash: Bytes -> string)
    requires forall b :: IsHash(hash(b))
    ensures CheckpointHolds(files, st, e, hash) <==>
      && NextCheckpoint(st) && NextObserver(st).Accepts(files.Keys) && Readable(files, Limit)
      && Framable(Of(files, ObserverGroup, Journals)) && Framable(Of(files, ObserverGroup, Outputs))
      && Framable(Of(files, ObserverGroup, Artifacts)) && Framable(Of(files, ObserverGroup, Derived))
      && RUN_STATE in files && RequestName(st) in files
      && e.state == Some(hash(files[RUN_STATE])) && e.request == Some(hash(files[RequestName(st)]))
      && e.artifacts == Some(hash(Stream(Of(files, ObserverGroup, Artifacts))))
      && e.journals == Some(hash(Stream(Of(files, ObserverGroup, Journals))))
      && e.outputs == Some(hash(Stream(Of(files, ObserverGroup, Outputs))))
      && e.derived == Some(hash(Stream(Of(files, ObserverGroup, Derived))))
  {
    hide Of, ObserverGroup, Stream, Framable, IsHash, NextObserver, NextCheckpoint, Readable, RequestName, FileIs;
    RequestIsNoState(st);
    OneFile(files, RUN_STATE, STATE_MAX, e.state, hash);
    OneFile(files, RequestName(st), FILE_MAX, e.request, hash);
  }

  lemma RequestIsNoState(st: State)
    ensures RequestName(st) != RUN_STATE
  {
    PartIsNotFixed(Adjudication, st.adjudicationCompleted + 1, Request);
  }

  /** A file of a readable directory is held against its own digest only. */
  lemma OneFile(files: Contents, name: string, limit: nat, expected: Option<string>, hash: Bytes -> string)
    requires (forall b :: IsHash(hash(b))) && limit == Limit(name)
    ensures Readable(files, Limit) ==>
      (expected.Some? && FileIs(files, name, limit, expected.value, hash)
       <==> name in files && expected == Some(hash(files[name])))
  {
    hide Total, IsHash;
  }

  lemma RequestSpelled(p: nat)
    ensures PartName(Adjudication, p, Request) == "adjudication-part-" + Pad4(p) + "-requests.jsonl"
  {
    assert Prefix(Adjudication, Request) == "adjudication-part-";
  }

  /** Two slots exchanged are refused, whatever the rest, when their digests
      differ. */
  lemma ExchangedSlotsAreRefused(files: Contents, st: State, e: Expected, hash: Bytes -> string)
    requires (forall b :: IsHash(hash(b))) && CheckpointHolds(files, st, e, hash)
    ensures e.journals != e.outputs ==> !CheckpointHolds(files, st, e.(journals := e.outputs, outputs := e.journals), hash)
    ensures e.artifacts != e.derived ==> !CheckpointHolds(files, st, e.(artifacts := e.derived, derived := e.artifacts), hash)
    ensures e.state != e.request ==> !CheckpointHolds(files, st, e.(state := e.request, request := e.state), hash)
  {
    hide CheckpointHolds, NextCheckpoint, NextObserver, Readable, Framable, IsHash, JournalFiles, OutputFiles, ArtifactFiles,
         DerivedFiles, Stream, Pad4;
    CheckpointExactly(files, st, e, hash);
    CheckpointExactly(files, st, e.(journals := e.outputs, outputs := e.journals), hash);
    CheckpointExactly(files, st, e.(artifacts := e.derived, derived := e.artifacts), hash);
    CheckpointExactly(files, st, e.(state := e.request, request := e.state), hash);
  }

  // ---------------------------------------------------- the primary observer

  predicate PrimaryJournalName(n: string) { |n| >= 14 && n[..14] == ".primary-part-" }

  lemma PrimaryHalves(files: Contents)
    ensures PrimaryJournals(files) == map n | n in files && PrimaryJournalName(n) :: files[n]
    ensures PrimaryRest(files) == map n | n in files && !PrimaryJournalName(n) :: files[n]
  {
    forall n: string
      ensures StartsWith(n, ".primary-part-") <==> PrimaryJournalName(n)
    {
      if PrimaryJournalName(n) { assert n == n[..14] + n[14..]; }
    }
    hide StartsWith, PrimaryJournalName;
  }

  /** A bound primary checkpoint accepts its part as a number, the digests of
      state and request, one digest of the part journals and one of everything
      else, and no other values. */
  lemma PrimaryCheckpointExactly(files: Contents, st: State, e: PrimaryExpected, hash: Bytes -> string)
    requires (forall b :: IsHash(hash(b))) && !Unbound(e)
    ensures PrimaryCheckpointHolds(files, st, e, hash) <==>
      && st.status == PrimarySubmitted && st.primaryCompleted < 2 && st.primaryCompleted < st.primaryParts
      && PrimaryObserver(st, st.primaryCompleted + 1).Accepts(files.Keys) && Readable(files, Limit)
      && (var journals := map n | n in files && PrimaryJournalName(n) :: files[n];
          var rest := map n | n in files && !PrimaryJournalName(n) :: files[n];
          var request := "primary-part-" + Pad4(st.primaryCompleted + 1) + "-requests.jsonl";
          && Framable(journals) && Framable(rest)
          && "run-state.json" in files && request in files
          && e == PrimaryExpected(
               part := Some(if st.primaryCompleted == 0 then "1" else "2"),
               state := Some(hash(files["run-state.json"])),
               artifacts := Some(hash(Stream(rest))),
               journals := Some(hash(Stream(journals))),
               request := Some(hash(files[request]))))
  {
    hide PrimaryRest, PrimaryJournals, PrimaryJournalName, Stream, Framable, IsHash, PrimaryObserver, Readable, Pad4, PartName, FileIs;
    PrimaryHalves(files);
    PrimaryRequestSpelled(st.primaryCompleted + 1);
    var request := PartName(Primary, st.primaryCompleted + 1, Request);
    PartIsNotFixed(Primary, st.primaryCompleted + 1, Request);
    OneFile(files, RUN_STATE, STATE_MAX, e.state, hash);
    OneFile(files, request, FILE_MAX, e.request, hash);
    assert "1" != "2";
  }

  /** With no value given at all the primary observer checks nothing; with some
      given and some not it refuses. */
  lemma UnboundExactly(files: Contents, st: State, e: PrimaryExpected, hash: Bytes -> string)
    ensures Unbound(e) <==> e == PrimaryExpected(None, None, None, None, None)
    ensures PrimaryCheckpointHolds(files, st, PrimaryExpected(None, None, None, None, None), hash)
    ensures !Unbound(e) && (e.part.None? || e.state.None? || e.artifacts.None? || e.journals.None? || e.request.None?) ==>
      !PrimaryCheckpointHolds(files, st, e, hash)
  {
  }

  lemma PrimaryRequestSpelled(p: nat)
    ensures PartName(Primary, p, Request) == "primary-part-" + Pad4(p) + "-requests.jsonl"
  {
    assert Prefix(Primary, Request) == "primary-part-";
  }

  // --------------------------------------------------- the processing workers

  /** The primary-result worker: five slots, and nothing asked of a sixth. */
  lemma SnapshotBoundExactly(s: Snapshot, e: Expected, hash: Bytes -> string)
    requires forall b :: IsHash(hash(b))
    ensures SnapshotBound(s, e, hash) <==>
      && Framable(s.artifacts) && Framable(s.journals) && Framable(s.outputs) && Framable(s.derived)
      && e == Expected(state := Some(hash(s.state)), artifacts := Some(hash(Stream(s.artifacts))),
                       journals := Some(hash(Stream(s.journals))), outputs := Some(hash(Stream(s.outputs))),
                       derived := Some(hash(Stream(s.derived))), request := e.request)
  {
    hide Stream, Framable, IsHash;
  }

  /** The adjudication-result worker: six, the last for all requests. */
  lemma SortedBoundExactly(f: Sorted, e: Expected, hash: Bytes -> string)
    requires forall b :: IsHash(hash(b))
    ensures SortedBound(f, e, hash) <==>
      && Framable(f.artifacts) && Framable(f.requests) && Framable(f.journals) && Framable(f.outputs) && Framable(f.derived)
      && e == Expected(state := Some(hash(f.state)), artifacts := Some(hash(Stream(f.artifacts))),
                       journals := Some(hash(Stream(f.journals))), outputs := Some(hash(Stream(f.outputs))),
                       derived := Some(hash(Stream(f.derived))), request := Some(hash(Stream(f.requests))))
  {
    hide Stream, Framable, IsHash;
  }

  /** An expected value is a digest in lower-case hexadecimal or it is
      refused. */
  lemma HashesAreSpelledOut(s: string)
    ensures IsHash(s) <==> |s| == 64 && forall i :: 0 <= i < 64 ==> '0' <= s[i] <= '9' || 'a' <= s[i] <= 'f'
  {
    forall c: char
      ensures c in "0123456789abcdef" <==> '0' <= c <= '9' || 'a' <= c <= 'f'
    {
      var digits := "0123456789abcdef";
      if '0' <= c <= '9' { assert digits[(c - '0') as int] == c; }
      if 'a' <= c <= 'f' { assert digits[(c - 'a') as int + 10] == c; }
    }
    if IsHash(s) {
      assert forall i :: 0 <= i < 64 ==> s[i] in s;
    }
  }
}
