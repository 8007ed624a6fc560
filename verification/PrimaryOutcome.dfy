/** What an accepted call of the primary-result worker may do to a run:
    transitions, replays and crash points. */
module PrimaryOutcome {
  import opened Names
  import opened Groups
  import opened RunState
  import opened Files
  import opened Inventories
  import Contracts
  import opened PrimaryProcessing

  /** Only these seven fields (one of them, the total cost, derived) may move. */
  predicate Transition(before: State, after: State) {
    && after.status in {AdjudicationPrepared, Done}
    && after == before.(status := after.status, updatedAt := after.updatedAt,
                        actualPrimaryCost := after.actualPrimaryCost,
                        acceptedByConsensus := after.acceptedByConsensus,
                        adjudicationParts := after.adjudicationParts, needsHuman := after.needsHuman)
  }

  predicate Included(a: Contents, b: Contents) {
    forall n :: n in a ==> n in b && b[n] == a[n]
  }

  predicate EvidenceKept(before: Snapshot, after: Snapshot) {
    && after.artifacts == before.artifacts
    && after.journals == before.journals
    && after.outputs == before.outputs
    && Included(before.derived, after.derived)
  }

  predicate FullyObserved(st: State) {
    && st.status in {PrimaryPartCompleted, AdjudicationPrepared, Done}
    && 0 < st.primaryParts == st.primaryCompleted
  }

  function PrimaryReplyFor(st: State, st': State): Contracts.Reply {
    if st.status == PrimaryPartCompleted then Contracts.PrimaryStatusReply(st'.status) else Contracts.AlreadyProcessed
  }

  /** What one accepted call checks of the directory, of both states and of
      its own report.  `load` reads a persisted state. */
  predicate Accepted(before: Snapshot, st: State, after: Snapshot, st': State,
                     reader: Reader, load: Bytes -> Option<State>) {
    && FullyObserved(st)
    && Shape(before, st, reader)
    && Transition(st, st')
    && Shape(after, st', reader)
    && EvidenceKept(before, after)
    && load(after.state) == Some(st')
    && Contracts.ValidPrimary(Contracts.PrimaryReport(st', PrimaryReplyFor(st, st')))
  }

  lemma RequestNotAmong(reader: Reader, manifest: Bytes, p: nat)
    requires CompletedOutputs(reader, manifest).Some?
    ensures PartName(Adjudication, p, Request) !in
      PrimaryDerived() + {REVIEW_LEDGER, CALIBRATION} + CompletedOutputs(reader, manifest).value.files
      + SlashAll(CompletedOutputs(reader, manifest).value.directories)
  {
    var name := PartName(Adjudication, p, Request);
    var out := CompletedOutputs(reader, manifest).value;
    PartIsNotFixed(Adjudication, p, Request);
    OutputsAreUnderReviewed(reader, manifest);
    FirstCharacters(Adjudication, Request);
    assert name[0] == 'a';
    forall d | d in out.directories
      ensures Slash(d)[0] == 'r'
    {
      assert Slash(d)[0] == d[0] == "reviewed"[0];
    }
    forall f | f in out.files
      ensures f[0] == 'r'
    {
      assert f[0] == "reviewed/"[0];
    }
  }

  lemma LedgerIsNotPrepared(st: State)
    ensures REVIEW_LEDGER !in PreparedDerived(st)
  {
    forall p: nat { PartIsNotFixed(Adjudication, p, Request); }
    assert REVIEW_LEDGER[0] == 'r';
  }

  /** A completed run stays completed, and replaying it changes no evidence. */
  lemma CompletedReplayIsNoOp(before: Snapshot, st: State, after: Snapshot, st': State,
                              reader: Reader, load: Bytes -> Option<State>)
    requires Accepted(before, st, after, st', reader, load)
    requires st.status == Done
    ensures st'.status == Done && after == before.(state := after.state)
  {
    assert REVIEW_LEDGER in before.derived && REVIEW_LEDGER in after.derived;
    LedgerIsNotPrepared(st');
    hide PartName;
    assert before.derived.Keys == after.derived.Keys;
    assert before.derived == after.derived;
  }

  /** A prepared run with parts stays prepared; its part count never falls, and
      with the same count the replay changes no evidence. */
  lemma PreparedReplayKeepsParts(before: Snapshot, st: State, after: Snapshot, st': State,
                                 reader: Reader, load: Bytes -> Option<State>)
    requires Accepted(before, st, after, st', reader, load)
    requires st.status == AdjudicationPrepared && st.adjudicationParts > 0
    ensures st'.status == AdjudicationPrepared
    ensures st.adjudicationParts <= st'.adjudicationParts
    ensures st.adjudicationParts == st'.adjudicationParts <==> after == before.(state := after.state)
  {
    PreparedNeverCompletes(before, st, after, st', reader, load);
    PreparedNames(before, st, after, st', reader, load);
    assert before.derived.Keys <= after.derived.Keys;
    assert before.derived.Keys == after.derived.Keys ==> before.derived == after.derived;
    hide Accepted, PreparedDerived;
    PreparedSubset(st, st');
    if PreparedDerived(st) == PreparedDerived(st') { PreparedSubset(st', st); }
    if st.adjudicationParts == st'.adjudicationParts { PreparedSame(st, st'); }
  }

  lemma PreparedNeverCompletes(before: Snapshot, st: State, after: Snapshot, st': State,
                               reader: Reader, load: Bytes -> Option<State>)
    requires Accepted(before, st, after, st', reader, load)
    requires st.status == AdjudicationPrepared && st.adjudicationParts > 0
    ensures st'.status == AdjudicationPrepared
  {
    hide PartName, CompletedOutputs, SlashAll, PrimaryDerived;
    var last := PartName(Adjudication, st.adjudicationParts, Request);
    assert last in Parts(Adjudication, Request, 1, st.adjudicationParts);
    assert last in before.derived && last in after.derived;
    if st'.status == Done { RequestNotAmong(reader, after.artifacts[SOURCE_MANIFEST], st.adjudicationParts); }
  }

  lemma PreparedNames(before: Snapshot, st: State, after: Snapshot, st': State, reader: Reader, load: Bytes -> Option<State>)
    requires Accepted(before, st, after, st', reader, load)
    requires st.status == st'.status == AdjudicationPrepared
    ensures before.derived.Keys == PreparedDerived(st) && after.derived.Keys == PreparedDerived(st')
    ensures Included(before.derived, after.derived)
    ensures after == before.(state := after.state, derived := after.derived)
  {
    hide PreparedDerived, CompletedOutputs;
  }

  lemma PreparedSubset(st: State, st': State)
    requires PreparedDerived(st) <= PreparedDerived(st') && st.adjudicationParts > 0
    ensures st.adjudicationParts <= st'.adjudicationParts
  {
    hide PartName, Parts, PrimaryDerived;
    var p := st.adjudicationParts;
    PartIsNotFixed(Adjudication, p, Request);
    InParts(Adjudication, p, Request, Adjudication, Request, 1, p);
    InParts(Adjudication, p, Request, Adjudication, Request, 1, st'.adjudicationParts);
    assert PartName(Adjudication, p, Request) in PreparedDerived(st');
  }

  lemma PreparedSame(st: State, st': State)
    requires st.adjudicationParts == st'.adjudicationParts
    ensures PreparedDerived(st) == PreparedDerived(st')
  {
  }

  /** One call after another, each from the directory and the state the one
      before it left. */
  predicate Calls(calls: seq<(Snapshot, State)>, reader: Reader, load: Bytes -> Option<State>) {
    forall i :: 0 <= i < |calls| - 1 ==>
      Accepted(calls[i].0, calls[i].1, calls[i + 1].0, calls[i + 1].1, reader, load)
  }

  /** The outcome is final.  Whatever the first accepted call of a run decided,
      prepared or completed, every accepted call after it repeats it and keeps
      the evidence: a prepared run always has a part, which no completed
      directory holds. */
  lemma {:induction false} OutcomeIsFinal(calls: seq<(Snapshot, State)>, reader: Reader, load: Bytes -> Option<State>)
    requires |calls| >= 2 && Calls(calls, reader, load)
    ensures calls[1].1.status in {AdjudicationPrepared, Done}
    ensures forall i :: 1 <= i < |calls| ==>
      && calls[i].1.status == calls[1].1.status
      && EvidenceKept(calls[1].0, calls[i].0) && calls[1].1.adjudicationParts <= calls[i].1.adjudicationParts
    decreases |calls|
  {
    hide Accepted, EvidenceKept;
    var n := |calls| - 1;
    AcceptedDecides(calls[0].0, calls[0].1, calls[1].0, calls[1].1, reader, load);
    if n > 1 {
      OutcomeIsFinal(calls[..n], reader, load);
      assert calls[..n][1] == calls[1] && calls[..n][n - 1] == calls[n - 1];
      AcceptedDecides(calls[n - 2].0, calls[n - 2].1, calls[n - 1].0, calls[n - 1].1, reader, load);
      OutcomeRepeats(calls[n - 1].0, calls[n - 1].1, calls[n].0, calls[n].1, reader, load);
      EvidenceTransitive(calls[1].0, calls[n - 1].0, calls[n].0);
      forall i | 1 <= i < |calls|
        ensures calls[i].1.status == calls[1].1.status
        ensures EvidenceKept(calls[1].0, calls[i].0) && calls[1].1.adjudicationParts <= calls[i].1.adjudicationParts
      {
        if i < n { assert calls[..n][i] == calls[i]; }
      }
    }
  }

  lemma AcceptedDecides(before: Snapshot, st: State, after: Snapshot, st': State, reader: Reader, load: Bytes -> Option<State>)
    requires Accepted(before, st, after, st', reader, load)
    ensures st'.status in {AdjudicationPrepared, Done} && (st'.status == AdjudicationPrepared <==> st'.adjudicationParts > 0)
    ensures EvidenceKept(after, after)
  {
    hide Shape;
  }

  lemma OutcomeRepeats(before: Snapshot, st: State, after: Snapshot, st': State, reader: Reader, load: Bytes -> Option<State>)
    requires Accepted(before, st, after, st', reader, load)
    requires st.status == Done || (st.status == AdjudicationPrepared && st.adjudicationParts > 0)
    ensures st'.status == st.status && EvidenceKept(before, after)
    ensures st.status == AdjudicationPrepared ==> st.adjudicationParts <= st'.adjudicationParts
  {
    if st.status == Done {
      CompletedReplayIsNoOp(before, st, after, st', reader, load);
    } else {
      PreparedReplayKeepsParts(before, st, after, st', reader, load);
    }
    hide Shape;
  }

  lemma EvidenceTransitive(a: Snapshot, b: Snapshot, c: Snapshot)
    requires EvidenceKept(a, b) && EvidenceKept(b, c)
    ensures EvidenceKept(a, c)
  {
  }

  /** The transition check alone would let a prepared run turn completed.  The
      whole call allows it exactly for a state prepared with no part at all
      and with candidates, which no accepted call leaves. */
  lemma PreparedMayFlipIffNoParts(before: Snapshot, st: State, reader: Reader, load: Bytes -> Option<State>)
    requires FullyObserved(st) && st.status == AdjudicationPrepared && Shape(before, st, reader)
    requires CompletedOutputs(reader, before.artifacts[SOURCE_MANIFEST]).Some?
    requires exists raw: Bytes :: load(raw) == Some(Completing(st))
    ensures (exists after, st' :: Accepted(before, st, after, st', reader, load) && st'.status == Done)
            <==> st.adjudicationParts == 0 && st.candidateCount > 0
  {
    if st.adjudicationParts > 0 {
      forall after, st' | Accepted(before, st, after, st', reader, load)
        ensures st'.status != Done
      {
        PreparedReplayKeepsParts(before, st, after, st', reader, load);
      }
    } else if st.candidateCount > 0 {
      var st' := Completing(st);
      var raw: Bytes :| load(raw) == Some(st');
      var after := Flipped(before, raw, reader);
      FlippedIsAccepted(before, st, raw, reader, load);
      assert Accepted(before, st, after, st', reader, load) && st'.status == Done;
    }
  }

  /** The outcome the report accepts: every candidate settled by consensus. */
  function Completing(st: State): State {
    st.(status := Done, acceptedByConsensus := st.candidateCount, needsHuman := 0)
  }

  function CompletedNames(out: ReviewedSet): set<string> {
    PrimaryDerived() + {REVIEW_LEDGER, CALIBRATION} + out.files + SlashAll(out.directories)
  }

  /** A prepared run's directory with the completion outputs added. */
  function Flipped(before: Snapshot, raw: Bytes, reader: Reader): Snapshot
    requires SOURCE_MANIFEST in before.artifacts
    requires CompletedOutputs(reader, before.artifacts[SOURCE_MANIFEST]).Some?
  {
    var names := CompletedNames(CompletedOutputs(reader, before.artifacts[SOURCE_MANIFEST]).value);
    before.(state := raw, derived := map n | n in names :: if n in before.derived then before.derived[n] else [0])
  }

  lemma FlippedIsAccepted(before: Snapshot, st: State, raw: Bytes, reader: Reader, load: Bytes -> Option<State>)
    requires FullyObserved(st) && st.status == AdjudicationPrepared && Shape(before, st, reader)
    requires st.adjudicationParts == 0
    requires CompletedOutputs(reader, before.artifacts[SOURCE_MANIFEST]).Some?
    requires st.candidateCount > 0 && load(raw) == Some(Completing(st))
    ensures Accepted(before, st, Flipped(before, raw, reader), Completing(st), reader, load)
  {
    hide PartName, Parts, CompletedOutputs, SlashAll, PrimaryDerived, Flipped, Within;
    NoRequests();
    FlippedFiles(before, raw, reader);
  }

  lemma NoRequests()
    ensures Parts(Adjudication, Request, 1, 0) == {}
  {
  }

  lemma FlippedFiles(before: Snapshot, raw: Bytes, reader: Reader)
    requires SOURCE_MANIFEST in before.artifacts && before.derived.Keys <= PrimaryDerived()
    requires CompletedOutputs(reader, before.artifacts[SOURCE_MANIFEST]).Some?
    ensures var after := Flipped(before, raw, reader);
      && after == before.(state := raw, derived := after.derived) && Included(before.derived, after.derived)
      && after.derived.Keys == CompletedNames(CompletedOutputs(reader, before.artifacts[SOURCE_MANIFEST]).value)
  {
    hide CompletedOutputs, SlashAll, PrimaryDerived;
    assert PrimaryDerived() <= CompletedNames(CompletedOutputs(reader, before.artifacts[SOURCE_MANIFEST]).value);
  }

  // ------------------------------------------------------------ crash points

  /** `x` is the directory at some point between `x0` and `x1`: nothing but
      derived files was added, and none was changed. */
  predicate Between(x0: Snapshot, x: Snapshot, x1: Snapshot) {
    && EvidenceKept(x0, x) && EvidenceKept(x, x1)
  }

  /** Interrupted while preparing adjudication: the retry is admitted exactly
      when every request part present is numbered within the candidate count
      and within the four digits of the retry pattern. */
  lemma PreparedCrashPoints(x0: Snapshot, x: Snapshot, x1: Snapshot, st: State, st': State, reader: Reader)
    requires st.status == PrimaryPartCompleted && Shape(x0, st, reader)
    requires Transition(st, st') && st'.status == AdjudicationPrepared && Shape(x1, st', reader)
    requires Between(x0, x, x1)
    ensures Shape(x, st, reader) <==>
      forall p :: 1 <= p <= st'.adjudicationParts && PartName(Adjudication, p, Request) in x.derived ==>
        p <= st.candidateCount && p <= 9999
    ensures st'.adjudicationParts <= st.candidateCount && st'.adjudicationParts <= 9999 ==> Shape(x, st, reader)
  {
    RetryableExactly(x.derived.Keys, st, st'.adjudicationParts);
    hide PartName, Retryable;
  }

  /** A refused crash point exists for every call that prepares ten thousand
      parts or more: the directory with request part 10000 alone. */
  lemma FiveDigitRequestIsRefused(x0: Snapshot, x1: Snapshot, st: State, st': State, reader: Reader)
    requires st.status == PrimaryPartCompleted && Shape(x0, st, reader) && x0.derived == map[]
    requires Transition(st, st') && st'.status == AdjudicationPrepared && Shape(x1, st', reader) && EvidenceKept(x0, x1)
    requires st'.adjudicationParts >= 10000
    ensures var x := RequestOnly(x0, x1, 10000);
      && PartName(Adjudication, 10000, Request) in x.derived
      && Between(x0, x, x1) && !Shape(x, st, reader)
  {
    hide PartName, Parts, PrimaryDerived, CompletedOutputs;
    var x := RequestOnly(x0, x1, 10000);
    InParts(Adjudication, 10000, Request, Adjudication, Request, 1, st'.adjudicationParts);
    assert PartName(Adjudication, 10000, Request) in x1.derived;
    hide Shape, Transition;
    PreparedCrashPoints(x0, x, x1, st, st', reader);
  }

  function RequestOnly(x0: Snapshot, x1: Snapshot, p: nat): Snapshot {
    x0.(derived := map n | n in x1.derived && n == PartName(Adjudication, p, Request) :: x1.derived[n])
  }

  /** Among the names of a prepared directory, the retry rule admits all but
      the requests numbered too high. */
  lemma RetryableExactly(names: set<string>, st: State, parts: nat)
    requires names <= PrimaryDerived() + Parts(Adjudication, Request, 1, parts)
    ensures (forall n :: n in names ==> Retryable(n, st.candidateCount)) <==>
      forall p :: 1 <= p <= parts && PartName(Adjudication, p, Request) in names ==> p <= st.candidateCount && p <= 9999
  {
    hide PartName, MatchAdjudicationRequest;
    forall p: nat
      ensures Retryable(PartName(Adjudication, p, Request), st.candidateCount) <==> 1 <= p <= st.candidateCount && p <= 9999
    {
      RequestMatches(p);
      PartIsNotFixed(Adjudication, p, Request);
    }
  }

  /** Interrupted while completing the run: the retry is admitted exactly when
      no completion output was written yet.  From the first ledger, reviewed
      file or reviewed directory on, the worker refuses its own partial work. */
  lemma CompletedCrashPoints(x0: Snapshot, x: Snapshot, x1: Snapshot, st: State, st': State, reader: Reader)
    requires st.status == PrimaryPartCompleted && Shape(x0, st, reader)
    requires Transition(st, st') && st'.status == Done && Shape(x1, st', reader)
    requires Between(x0, x, x1)
    ensures Shape(x, st, reader) <==> x.derived.Keys <= PrimaryDerived()
  {
    var manifest := x1.artifacts[SOURCE_MANIFEST];
    forall n | n in x.derived && Retryable(n, st.candidateCount)
      ensures n in PrimaryDerived()
    {
      var p := MatchAdjudicationRequest(n);
      if n !in PrimaryDerived() {
        MatchIsPartName(n, p.value);
        RequestNotAmong(reader, manifest, p.value);
      }
    }
  }

  /** Such a crash point exists for every completed call on a directory with
      nothing derived: the directory with the ledger alone. */
  lemma LedgerAloneIsRefused(x0: Snapshot, x1: Snapshot, st: State, st': State, reader: Reader)
    requires st.status == PrimaryPartCompleted && Shape(x0, st, reader) && x0.derived == map[]
    requires Transition(st, st') && st'.status == Done && Shape(x1, st', reader) && EvidenceKept(x0, x1)
    ensures REVIEW_LEDGER in x1.derived
    ensures var x := LedgerOnly(x0, x1); Between(x0, x, x1) && !Shape(x, st, reader)
  {
    hide Shape, PrimaryDerived, Transition;
    LedgerIsNotPrepared(st);
    LedgerIsThere(x1, st', reader);
    CompletedCrashPoints(x0, LedgerOnly(x0, x1), x1, st, st', reader);
    assert REVIEW_LEDGER in LedgerOnly(x0, x1).derived.Keys;
  }

  function LedgerOnly(x0: Snapshot, x1: Snapshot): Snapshot {
    x0.(derived := map n | n in x1.derived && n == REVIEW_LEDGER :: x1.derived[n])
  }

  lemma LedgerIsThere(x: Snapshot, st: State, reader: Reader)
    requires Shape(x, st, reader) && st.status == Done
    ensures REVIEW_LEDGER in x.derived
  {
    hide PrimaryDerived, CompletedOutputs, SlashAll, ExpectedArtifacts, ExpectedJournals, OutputsOk;
  }
}
