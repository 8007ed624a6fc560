/** The machine's admission and the observer's digests: what the machine admits
    is what some set of expected digests can be bound to. */
module RunBinding {
  import opened Names
  import opened Groups
  import opened RunState
  import opened Files
  import opened Inventories
  import opened PrimaryProcessing
  import opened Digest
  import opened Observers
  import opened Binding
  import opened RunDisk
  import opened RunMachine

  /** Every digested group can be framed: no name and no file too long for its
      length field. */
  predicate Framed(files: Contents) {
    && Framable(Of(files, ObserverGroup, Artifacts)) && Framable(Of(files, ObserverGroup, Journals))
    && Framable(Of(files, ObserverGroup, Outputs)) && Framable(Of(files, ObserverGroup, Derived))
  }

  /** What the workflow checks behind the digests. */
  ghost predicate LookBack(st: State, d: Disk) {
    IdsOk(st) && PartsValid(st, d, st.adjudicationCompleted) && RecordValid(st, d, st.adjudicationCompleted + 1)
  }

  ghost function DigestsOf(files: Contents, st: State, hash: Bytes -> string): Expected
    requires RUN_STATE in files && RequestName(st) in files
  {
    Expected(Some(hash(files[RUN_STATE])), Some(hash(Stream(Of(files, ObserverGroup, Artifacts)))),
             Some(hash(Stream(Of(files, ObserverGroup, Journals)))), Some(hash(Stream(Of(files, ObserverGroup, Outputs)))),
             Some(hash(Stream(Of(files, ObserverGroup, Derived)))), Some(hash(files[RequestName(st)])))
  }

  /** A readable directory with the names the observer wants fits its own
      digests; and whatever fits some digests is such a directory. */
  lemma CheckpointExistsExactly(files: Contents, st: State, hash: Bytes -> string)
    requires forall b :: IsHash(hash(b))
    ensures (exists e :: CheckpointHolds(files, st, e, hash)) <==>
      NextCheckpoint(st) && NextObserver(st).Accepts(files.Keys) && Readable(files, Limit) && Framed(files)
  {
    hide Stream, Framable, IsHash, NextObserver, ObserverGroup, NextCheckpoint, Readable, FileIs, PartName, Of;
    if NextCheckpoint(st) && NextObserver(st).Accepts(files.Keys) && Readable(files, Limit) && Framed(files) {
      CheckpointFiles(files, st, hash);
      assert CheckpointHolds(files, st, DigestsOf(files, st, hash), hash);
    }
  }

  lemma CheckpointFiles(files: Contents, st: State, hash: Bytes -> string)
    requires forall b :: IsHash(hash(b))
    requires NextCheckpoint(st) && NextObserver(st).Accepts(files.Keys) && Readable(files, Limit)
    ensures RUN_STATE in files && FileIs(files, RUN_STATE, STATE_MAX, hash(files[RUN_STATE]), hash)
    ensures var r := RequestName(st); r in files && FileIs(files, r, FILE_MAX, hash(files[r]), hash)
  {
    hide PartName, Total, IsHash;
    assert RequestName(st) in Parts(Adjudication, Request, 1, st.adjudicationParts);
  }

  /** From the second part on the machine's observer admits a run that can be
      framed exactly when some expected digests are met by the directory and
      the look back succeeds. */
  lemma AdmissionIsBindable(w: World, hash: Bytes -> string)
    requires w.state.adjudicationCompleted > 0 && forall b :: IsHash(hash(b))
    ensures ObserverAdmits(w) && Framed(DiskFiles(w.disk)) <==>
      LookBack(w.state, w.disk) && exists e :: CheckpointHolds(DiskFiles(w.disk), w.state, e, hash)
  {
    hide DiskFiles, DiskNames, Framed, IsHash, FirstObserver, FirstCheckpoint, NextObserver, NextCheckpoint, Readable,
         CheckpointHolds, PartsValid, RecordValid, IdsOk;
    DiskFilesNames(w.disk);
    CheckpointExistsExactly(DiskFiles(w.disk), w.state, hash);
  }
}
