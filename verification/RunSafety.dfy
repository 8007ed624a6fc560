/** Every run of the adjudication machine, whatever crashes and retries it
    contains. */
module RunSafety {
  import opened Names
  import opened Lists
  import opened Groups
  import opened RunState
  import opened Inventories
  import opened PrimaryProcessing
  import opened HandOff
  import opened Chain
  import opened Observers
  import opened RunDisk
  import opened RunMachine
  import Subtitles

  // ---------------------------------------------- admission at crash points

  ghost predicate FirstParts(parts: set<nat>, n: nat) { forall p: nat :: p in parts <==> 1 <= p <= n }

  lemma NamesOfFirst(k: Kind, parts: set<nat>, n: nat)
    requires FirstParts(parts, n)
    ensures NamesOf(k, parts) == Parts(Adjudication, k, 1, n)
  {
    var (a, b) := (NamesOf(k, parts), Parts(Adjudication, k, 1, n));
    forall x | x in a ensures x in b {
      var p: nat :| p in parts && x == PartName(Adjudication, p, k);
    }
    forall x | x in b ensures x in a {
      var p: nat :| 1 <= p <= n && x == PartName(Adjudication, p, k);
    }
  }

  lemma InNamesOf(k: Kind, p: nat, parts: set<nat>)
    ensures PartName(Adjudication, p, k) in NamesOf(k, parts) <==> p in parts
  {
    if PartName(Adjudication, p, k) in NamesOf(k, parts) {
      var q: nat :| q in parts && PartName(Adjudication, p, k) == PartName(Adjudication, q, k);
      PartNamesInjective(Adjudication, p, k, Adjudication, q, k);
    }
  }

  lemma NamesOfSubset(k: Kind, parts: set<nat>, all: set<nat>, n: nat)
    requires parts <= all && FirstParts(all, n)
    ensures NamesOf(k, parts) <= Parts(Adjudication, k, 1, n)
  {
    NamesOfFirst(k, all, n);
    SubsetNames(k, parts, all);
  }

  lemma SubsetNames(k: Kind, a: set<nat>, b: set<nat>)
    requires a <= b
    ensures NamesOf(k, a) <= NamesOf(k, b)
  {
  }

  lemma AcceptUnion(base: set<string>, pf: set<string>, pd: set<string>, pe: set<string>, ar: set<string>,
                    ai: set<string>, ac: set<string>, ao: set<string>, ae: set<string>,
                    i: set<string>, c: set<string>, e: set<string>, extra: set<string>)
    requires Within(base, pf + pd, pe) && e <= ae
    requires ai <= i <= ai + extra && ac <= c <= ac + extra
    ensures pf + (pd + ar) + (ai + ac + ao) <= base + ar + i + c + ao + e + {}
    ensures base + ar + i + c + ao + e + {} <= pf + (pd + ar) + (ai + ac + ao) + (pe + ae) + extra
  {
  }

  lemma JournalNames(k: Kind, parts: set<nat>, n: nat, size: nat)
    requires FirstParts(parts, size) && n <= size <= n + 1
    ensures Parts(Adjudication, k, 1, n) <= NamesOf(k, parts) <= Parts(Adjudication, k, 1, n) + {PartName(Adjudication, n + 1, k)}
    ensures size == n ==> NamesOf(k, parts) == Parts(Adjudication, k, 1, n)
  {
    NamesOfFirst(k, parts, size);
    NextPart(Adjudication, k, n);
  }

  function ActivePair(n: nat): set<string> {
    {PartName(Adjudication, n + 1, Intent), PartName(Adjudication, n + 1, Completed)}
  }

  lemma DiskPieces(d: Disk, m: nat, n: nat, k: nat, extra: set<string>)
    requires Dense(d.requests) && |d.requests| == m
    requires Dense(d.intents) && Dense(d.completions) && n <= |d.intents| <= n + 1 && n <= |d.completions| <= n + 1
    requires extra == ActivePair(n) || (extra == {} && |d.intents| == |d.completions| == n)
    requires Dense(d.outputs) && |d.outputs| == k && d.errors.Keys <= d.outputs.Keys
    ensures NamesOf(Request, d.requests.Keys) == Parts(Adjudication, Request, 1, m)
    ensures NamesOf(Output, d.outputs.Keys) == Parts(Adjudication, Output, 1, k)
    ensures NamesOf(ApiErrors, d.errors.Keys) <= Parts(Adjudication, ApiErrors, 1, k)
    ensures Parts(Adjudication, Intent, 1, n) <= NamesOf(Intent, d.intents.Keys) <= Parts(Adjudication, Intent, 1, n) + extra
    ensures Parts(Adjudication, Completed, 1, n) <= NamesOf(Completed, d.completions.Keys) <= Parts(Adjudication, Completed, 1, n) + extra
  {
    NamesOfFirst(Request, d.requests.Keys, m);
    NamesOfFirst(Output, d.outputs.Keys, k);
    NamesOfSubset(ApiErrors, d.errors.Keys, d.outputs.Keys, k);
    JournalNames(Intent, d.intents.Keys, n, |d.intents|);
    JournalNames(Completed, d.completions.Keys, n, |d.completions|);
  }

  /** The names on disk: the evidence of `n` submitted and `k` observed parts,
      and perhaps a journal record of the next part. */
  lemma DiskIsEvidence(st: State, d: Disk, n: nat, k: nat, extra: set<string>)
    requires Within(BaseNames(d), PrimaryFiles(st) + PrimaryDerived(), PrimaryErrors(st)) && RequestInv(st, d) && d.terminal.None?
    requires Dense(d.intents) && Dense(d.completions) && n <= |d.intents| <= n + 1 && n <= |d.completions| <= n + 1
    requires extra == ActivePair(n) || (extra == {} && |d.intents| == |d.completions| == n)
    requires Dense(d.outputs) && |d.outputs| == k && d.errors.Keys <= d.outputs.Keys
    ensures Evidence(st, n, k).required <= DiskNames(d)
    ensures DiskNames(d) <= Evidence(st, n, k).required + Evidence(st, n, k).optional + extra
  {
    hide PartName, Parts, NamesOf, PrimaryFiles, PrimaryErrors, PrimaryDerived, BaseNames, Dense, ActivePair;
    var m := st.adjudicationParts;
    DiskPieces(d, m, n, k, extra);
    AcceptUnion(BaseNames(d), PrimaryFiles(st), PrimaryDerived(), PrimaryErrors(st), Parts(Adjudication, Request, 1, m),
                Parts(Adjudication, Intent, 1, n), Parts(Adjudication, Completed, 1, n),
                Parts(Adjudication, Output, 1, k), Parts(Adjudication, ApiErrors, 1, k),
                NamesOf(Intent, d.intents.Keys), NamesOf(Completed, d.completions.Keys), NamesOf(ApiErrors, d.errors.Keys),
                extra);
  }

  lemma FixedIsFresh(x: string, st: State, n: nat, k: nat)
    requires IsFixedName(x) && x !in {CANDIDATES, SOURCE_MANIFEST} + {RUN_STATE} + PrimaryDerived()
    ensures x !in Evidence(st, n, k).required
    ensures x !in Evidence(st, n, k).optional
  {
    FixedNotInPrimary(x, st);
    FixedNotInAdjudication(x, st, n, k);
  }

  lemma FixedNotInPrimary(x: string, st: State)
    requires IsFixedName(x) && x !in {CANDIDATES, SOURCE_MANIFEST} + {RUN_STATE} + PrimaryDerived()
    ensures x !in PrimaryFiles(st) && x !in PrimaryErrors(st) && x !in PreparedDerived(st)
  {
    var p := st.primaryParts;
    NotAPart(x, Primary, Request, 1, p);
    NotAPart(x, Primary, Intent, 1, p);
    NotAPart(x, Primary, Completed, 1, p);
    NotAPart(x, Primary, Output, 1, p);
    NotAPart(x, Primary, ApiErrors, 1, p);
    NotAPart(x, Adjudication, Request, 1, st.adjudicationParts);
  }

  lemma FixedNotInAdjudication(x: string, st: State, n: nat, k: nat)
    requires IsFixedName(x)
    ensures x !in AdjudicationFiles(n, k) && x !in Parts(Adjudication, ApiErrors, 1, k)
  {
    NotAPart(x, Adjudication, Intent, 1, n);
    NotAPart(x, Adjudication, Completed, 1, n);
    NotAPart(x, Adjudication, Output, 1, k);
    NotAPart(x, Adjudication, ApiErrors, 1, k);
  }

  lemma TerminalIsNoSource()
    ensures IsFixedName(TERMINAL_ERRORS)
    ensures TERMINAL_ERRORS !in {CANDIDATES, SOURCE_MANIFEST} + {RUN_STATE} + PrimaryDerived()
  {
    assert TERMINAL_ERRORS[0] == 't';
  }

  // ------------------------------------------------------------ looking back

  /** What the look back at earlier parts comes down to: a known state in the
      records of the first `n`, an output of the first `k` that can be read. */
  ghost predicate PartsUsable(d: Disk, n: nat, k: nat) {
    && (forall p: nat :: 1 <= p <= n && p in d.completions ==> KnownStatus(d.completions[p].answer.status))
    && (forall p: nat :: 1 <= p <= k && p in d.outputs ==> Bounded(d.outputs[p]))
  }

  /** Everything else the journal check asks of a submitted part holds in every
      reachable world. */
  lemma RecordValidExactly(w: World, p: nat)
    requires JournalInv(w.state, w.disk, w.log) && 1 <= p <= |w.state.batchIds|
    ensures p in w.disk.completions
    ensures RecordValid(w.state, w.disk, p) <==> KnownStatus(w.disk.completions[p].answer.status)
  {
    hide KnownStatus, Bounded, FreshInv;
    assert w.log[p - 1].part == p && p - 1 + 1 in w.disk.completions;
  }

  lemma PartsValidExactly(w: World)
    requires Inv(w) && w.state.adjudicationCompleted <= |w.state.batchIds|
    ensures PartsValid(w.state, w.disk, w.state.adjudicationCompleted) <==>
            PartsUsable(w.disk, w.state.adjudicationCompleted, w.state.adjudicationCompleted)
  {
    hide Inv, RecordValid, KnownStatus, Bounded, JournalInv;
    CompletedPartsAreStored(w);
    JournalOf(w);
    forall p: nat | 1 <= p <= w.state.adjudicationCompleted
      ensures p in w.disk.outputs && p in w.disk.completions
      ensures RecordValid(w.state, w.disk, p) <==> KnownStatus(w.disk.completions[p].answer.status)
    {
      RecordValidExactly(w, p);
    }
  }

  lemma JournalOf(w: World)
    requires Inv(w)
    ensures JournalInv(w.state, w.disk, w.log)
  {
    hide JournalInv, RequestInv, OutputInv, JobInv, StateInv;
  }

  lemma CompletedPartsAreStored(w: World)
    requires Inv(w)
    ensures forall p: nat :: 1 <= p <= w.state.adjudicationCompleted ==> p in w.disk.outputs
  {
    hide JobInv, RequestInv, JournalInv, StateInv;
  }

  /** The look back of an observer, at the completed parts and the active one. */
  lemma LookBackExactly(w: World)
    requires Inv(w) && w.state.status == AdjudicationSubmitted
    ensures PartsValid(w.state, w.disk, w.state.adjudicationCompleted)
            && RecordValid(w.state, w.disk, w.state.adjudicationCompleted + 1)
            <==> PartsUsable(w.disk, w.state.adjudicationCompleted + 1, w.state.adjudicationCompleted)
  {
    hide Inv, JournalInv, KnownStatus, Bounded, RecordValid, PartsValid, PartsUsable;
    SubmittedJournal(w);
    PartsValidExactly(w);
    RecordValidExactly(w, w.state.adjudicationCompleted + 1);
    UsableGrows(w.disk, w.state.adjudicationCompleted);
  }

  lemma ValidIsUsable(st: State, d: Disk, k: nat)
    requires PartsValid(st, d, k)
    ensures PartsUsable(d, k, k)
    ensures RecordValid(st, d, k + 1) ==> PartsUsable(d, k + 1, k)
  {
    hide KnownStatus, Bounded;
    forall p: nat | 1 <= p <= k
      ensures p in d.outputs && Bounded(d.outputs[p])
      ensures p in d.completions && KnownStatus(d.completions[p].answer.status)
    {
      assert RecordValid(st, d, p);
    }
  }

  lemma SubmittedJournal(w: World)
    requires Inv(w) && w.state.status == AdjudicationSubmitted
    ensures JournalInv(w.state, w.disk, w.log) && |w.state.batchIds| == w.state.adjudicationCompleted + 1
  {
    hide JournalInv, OutputInv, JobInv, RequestInv;
  }

  lemma UsableGrows(d: Disk, k: nat)
    requires k + 1 in d.completions
    ensures PartsUsable(d, k + 1, k) <==> PartsUsable(d, k, k) && KnownStatus(d.completions[k + 1].answer.status)
  {
    hide KnownStatus, Bounded;
  }

  /** Whichever observer has the turn, it asks for the same evidence. */
  lemma ObserverAsksForEvidence(w: World)
    requires Inv(w) && w.state.status == AdjudicationSubmitted
    ensures ObserverAdmits(w) <==>
      && Evidence(w.state, w.state.adjudicationCompleted + 1, w.state.adjudicationCompleted).Accepts(DiskNames(w.disk))
      && DiskReadable(w.disk)
      && (w.state.adjudicationCompleted > 0 ==>
            PartsUsable(w.disk, w.state.adjudicationCompleted + 1, w.state.adjudicationCompleted))
  {
    FirstObserverIsEvidence(w.state);
    NextObserverIsEvidence(w.state);
    IdsAreOk(w);
    CheckpointHolds(w.state);
    LookBackExactly(w);
    hide Inv, PartsUsable, PartsValid, RecordValid, DiskReadable, DiskNames, Evidence, FirstObserver, NextObserver,
         FirstCheckpoint, NextCheckpoint, IdsOk;
  }

  lemma CheckpointHolds(st: State)
    requires StateInv(st) && st.status == AdjudicationSubmitted
    ensures if st.adjudicationCompleted == 0 then FirstCheckpoint(st) else NextCheckpoint(st)
  {
  }

  /** Whatever earlier stages left: an observer that admits a run finds nothing
      of the active part stored. */
  lemma AdmittedIsUnstored(w: World)
    requires Inv(w) && ObserverAdmits(w)
    ensures w.state.status == AdjudicationSubmitted
    ensures |w.disk.outputs| == w.state.adjudicationCompleted && w.disk.terminal.None?
  {
    AdmittedIsSubmitted(w);
    ObserverAsksForEvidence(w);
    hide ObserverAdmits;
    AcceptedIsUnstored(w);
  }

  lemma AdmittedIsSubmitted(w: World)
    requires ObserverAdmits(w)
    ensures w.state.status == AdjudicationSubmitted
  {
    hide FirstObserver, NextObserver, DiskNames, DiskReadable, PartsValid, RecordValid, IdsOk;
  }

  lemma AcceptedIsUnstored(w: World)
    requires Inv(w) && w.state.status == AdjudicationSubmitted
    requires Evidence(w.state, w.state.adjudicationCompleted + 1, w.state.adjudicationCompleted).Accepts(DiskNames(w.disk))
    ensures |w.disk.outputs| == w.state.adjudicationCompleted && w.disk.terminal.None?
  {
    hide Evidence, DiskNames, JournalInv, JobInv, RequestInv;
    var (st, d, k) := (w.state, w.disk, w.state.adjudicationCompleted);
    if d.terminal.Some? { TerminalIsRefused(st, d, k + 1, k); }
    if |d.outputs| == k + 1 { StoredOutputIsRefused(st, d, k); }
  }

  /** On what earlier stages should have left, the observer whose turn it is
      admits a submitted run exactly when nothing of the active part was stored
      yet, every file can be read, and, from the second part on, the look back
      finds known batch states and readable outputs.  A worker that crashed
      after writing an output, an error file or the failure evidence, and
      before saving the state, leaves a directory every observer refuses. */
  lemma ObserverAdmissionExact(w: World)
    requires Inv(w) && Inherited(w) && w.state.status == AdjudicationSubmitted
    ensures ObserverAdmits(w) <==>
      && |w.disk.outputs| == w.state.adjudicationCompleted && w.disk.terminal.None?
      && DiskReadable(w.disk)
      && (w.state.adjudicationCompleted > 0 ==>
            PartsUsable(w.disk, w.state.adjudicationCompleted + 1, w.state.adjudicationCompleted))
  {
    hide ObserverAdmits, Inv, Inherited, Evidence, DiskNames, DiskReadable, PartsUsable;
    ObserverAsksForEvidence(w);
    if ObserverAdmits(w) { AdmittedIsUnstored(w); }
    if |w.disk.outputs| == w.state.adjudicationCompleted && w.disk.terminal.None? { UnstoredIsAccepted(w); }
  }

  lemma UnstoredIsAccepted(w: World)
    requires Inv(w) && Inherited(w) && w.state.status == AdjudicationSubmitted
    requires |w.disk.outputs| == w.state.adjudicationCompleted && w.disk.terminal.None?
    ensures Evidence(w.state, w.state.adjudicationCompleted + 1, w.state.adjudicationCompleted).Accepts(DiskNames(w.disk))
  {
    SubmittedCounts(w);
    hide Live, Evidence, DiskNames;
    DiskIsEvidence(w.state, w.disk, w.state.adjudicationCompleted + 1, w.state.adjudicationCompleted, {});
    NothingMore(Evidence(w.state, w.state.adjudicationCompleted + 1, w.state.adjudicationCompleted), DiskNames(w.disk));
  }

  lemma NothingMore(i: Interval, names: set<string>)
    requires i.required <= names && names <= i.required + i.optional + {}
    ensures i.Accepts(names)
  {
  }

  lemma SubmittedCounts(w: World)
    requires Live(w) && w.state.status == AdjudicationSubmitted
    ensures var (d, k) := (w.disk, w.state.adjudicationCompleted);
      && Dense(d.intents) && Dense(d.completions) && |d.intents| == |d.completions| == k + 1
      && Dense(d.outputs) && d.errors.Keys <= d.outputs.Keys
  {
    hide JobInv;
  }

  lemma TerminalIsRefused(st: State, d: Disk, n: nat, k: nat)
    requires d.terminal.Some?
    ensures !Evidence(st, n, k).Accepts(DiskNames(d))
  {
    TerminalIsNoSource();
    FixedIsFresh(TERMINAL_ERRORS, st, n, k);
    assert TERMINAL_ERRORS in DiskNames(d);
  }

  lemma StoredOutputIsRefused(st: State, d: Disk, k: nat)
    requires Dense(d.outputs) && |d.outputs| == k + 1
    ensures !Evidence(st, k + 1, k).Accepts(DiskNames(d))
  {
    FreshName(st, k + 1, k, k + 1, Output);
    InNamesOf(Output, k + 1, d.outputs.Keys);
    assert PartName(Adjudication, k + 1, Output) in DiskNames(d);
  }

  lemma IdsAreOk(w: World)
    requires JournalInv(w.state, w.disk, w.log)
    ensures IdsOk(w.state)
  {
    IdsDistinct(w);
    hide Subtitles.Trimmed, Distinct, FreshInv, LogInv, IntentInv;
    var (b, i) := (w.state.batchIds, w.state.inputIds);
    forall p | 0 <= p < |b|
      ensures Subtitles.Trimmed(b[p]) && Subtitles.Trimmed(i[p])
    {
      assert p + 1 in w.disk.completions && AnswerOk(w.log[p].answer);
    }
  }

  lemma IdsDistinct(w: World)
    requires JournalInv(w.state, w.disk, w.log)
    ensures Distinct(w.state.batchIds) && Distinct(w.state.inputIds)
  {
  }

  /** The submission worker admits a resting run exactly when a part is left,
      every file can be read and the look back at the completed parts finds
      known batch states and readable outputs; at every crash point of an
      earlier submission, and of no other worker. */
  lemma SubmissionAdmissionExact(w: World)
    requires Inv(w) && Inherited(w) && Resting(w.state)
    ensures SubmissionAdmits(w) <==>
      && w.state.adjudicationCompleted < w.state.adjudicationParts
      && DiskReadable(w.disk)
      && PartsUsable(w.disk, w.state.adjudicationCompleted, w.state.adjudicationCompleted)
  {
    RestingDisk(w);
    IdsAreOk(w);
    RestingCounts(w);
    PartsValidExactly(w);
    hide Inherited, Inv, DiskReadable, PartsUsable, PartsValid, DiskNames, IdsOk, Evidence, SubmissionAdmits, ActivePair;
    if w.state.status == AdjudicationPrepared { PreparedAdmits(w); } else { CompletedAdmits(w); }
  }

  lemma RestingCounts(w: World)
    requires Inv(w) && Resting(w.state)
    ensures StateInv(w.state) && |w.state.batchIds| == w.state.adjudicationCompleted
    ensures w.state.adjudicationCompleted + 1 !in w.disk.outputs && w.state.adjudicationCompleted + 1 !in w.disk.errors
  {
    hide JobInv, RequestInv, JournalInv;
  }

  lemma RestingDisk(w: World)
    requires Inv(w) && Inherited(w) && Resting(w.state)
    ensures var (e, k) := (Evidence(w.state, w.state.adjudicationCompleted, w.state.adjudicationCompleted), w.state.adjudicationCompleted);
      e.required <= DiskNames(w.disk) && DiskNames(w.disk) <= e.required + e.optional + ActivePair(k)
  {
    var k := w.state.adjudicationCompleted;
    RestingRecords(w);
    assert RequestInv(w.state, w.disk);
    hide Live, RequestInv, Evidence, DiskNames, ActivePair, PrimaryFiles, PrimaryErrors, BaseNames;
    DiskIsEvidence(w.state, w.disk, k, k, ActivePair(k));
  }

  lemma RestingRecords(w: World)
    requires Inv(w) && Resting(w.state)
    ensures var (d, k) := (w.disk, w.state.adjudicationCompleted);
      && d.terminal.None? && Dense(d.outputs) && |d.outputs| == k && d.errors.Keys <= d.outputs.Keys
      && Dense(d.intents) && Dense(d.completions) && k <= |d.intents| <= k + 1 && k <= |d.completions| <= k + 1
  {
    hide JobInv, RequestInv, IntentInv, LogInv, FreshInv, CompletionInv, IdsInv;
  }

  lemma PreparedAdmits(w: World)
    requires StateInv(w.state) && w.state.status == AdjudicationPrepared
    requires var e := Evidence(w.state, 0, 0);
      e.required <= DiskNames(w.disk) && DiskNames(w.disk) <= e.required + e.optional + ActivePair(0)
    ensures SubmissionAdmits(w) <==> DiskReadable(w.disk)
    ensures PartsUsable(w.disk, 0, 0)
  {
    hide DiskReadable, DiskNames;
    NothingSubmitted(w.state);
    FirstSubmissionAccepts(w.state, DiskNames(w.disk));
  }

  lemma CompletedAdmits(w: World)
    requires StateInv(w.state) && w.state.status == AdjudicationPartCompleted && IdsOk(w.state)
    requires w.state.adjudicationCompleted + 1 !in w.disk.outputs && w.state.adjudicationCompleted + 1 !in w.disk.errors
    requires var (e, k) := (Evidence(w.state, w.state.adjudicationCompleted, w.state.adjudicationCompleted), w.state.adjudicationCompleted);
      e.required <= DiskNames(w.disk) && DiskNames(w.disk) <= e.required + e.optional + ActivePair(k)
    ensures SubmissionAdmits(w) <==>
      && w.state.adjudicationCompleted < w.state.adjudicationParts
      && DiskReadable(w.disk) && PartsValid(w.state, w.disk, w.state.adjudicationCompleted)
  {
    hide DiskReadable, PartsValid, DiskNames, IdsOk;
    var names := DiskNames(w.disk);
    NextSubmissionAccepts(w.state, names);
    assert NextSubmission(w.state).Accepts(names);
  }

  lemma FirstSubmissionAccepts(st: State, names: set<string>)
    requires PrimaryFiles(st) + PreparedDerived(st) <= names
    requires names <= PrimaryFiles(st) + PreparedDerived(st) + PrimaryErrors(st) + ActivePair(0)
    ensures FirstSubmission(st).Accepts(names)
  {
  }

  lemma NextSubmissionAccepts(st: State, names: set<string>)
    requires st.status == AdjudicationPartCompleted
    requires var e := Evidence(st, st.adjudicationCompleted, st.adjudicationCompleted);
      e.required <= names && names <= e.required + e.optional + ActivePair(st.adjudicationCompleted)
    ensures NextSubmission(st).Accepts(names)
  {
    var k := st.adjudicationCompleted;
    ShuffleFor(st, k, k);
    assert ActivePair(k) <= NextSubmission(st).optional;
    assert Evidence(st, k, k).optional <= NextSubmission(st).optional;
  }

  lemma InitInv(w: World)
    requires Init(w)
    ensures Inv(w)
  {
  }
}
