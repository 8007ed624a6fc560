/** A run to its end: from every prepared directory, whatever the provider
    answers within the limits, to one the adjudication-result worker takes. */
module RunFinish {
  import opened Names
  import opened Groups
  import opened RunState
  import opened Files
  import opened Inventories
  import opened PrimaryProcessing
  import opened AdjudicationProcessing
  import opened HandOff
  import opened Chain
  import opened Observers
  import opened RunDisk
  import opened RunMachine
  import opened RunSafety
  import opened RunInvariant
  import opened RunTheorems
  import opened RunProgress

  // ---------------------------------------------------------------- replays

  /** The observer that replays an observed run: the first one after part one,
      the generic one later, which looks back once more. */
  ghost predicate ReplayAdmits(w: World) {
    var st, d := w.state, w.disk;
    if st.adjudicationCompleted == 1 then
      FirstObserver(st, true).Accepts(DiskNames(d)) && DiskReadable(d)
    else
      && NextReplay(st) && NextObserver(st).Accepts(DiskNames(d)) && DiskReadable(d)
      && PartsValid(st, d, st.adjudicationCompleted)
      && (forall p :: p in d.errors ==> Bounded(d.errors[p]))
  }

  /** A saved observation can be replayed as long as the next submission has
      written no journal record, every file can be read and, from the second
      part on, the look back finds known batch states, and outputs and error
      files of a readable size; and at no other time. */
  lemma ObservedRunReplaysExactly(w: World)
    requires Inv(w) && Inherited(w) && w.state.status == AdjudicationPartCompleted
    ensures ReplayAdmits(w) <==>
      && |w.disk.intents| == |w.state.batchIds| && DiskReadable(w.disk)
      && (w.state.adjudicationCompleted > 1 ==>
            && PartsUsable(w.disk, w.state.adjudicationCompleted, w.state.adjudicationCompleted)
            && forall p :: p in w.disk.errors ==> Bounded(w.disk.errors[p]))
  {
    var (st, k) := (w.state, w.state.adjudicationCompleted);
    ObservedState(w);
    ObservedNames(w);
    PartsValidExactly(w);
    NextObserverIsEvidence(st);
    if k == 1 { FirstIsNext(st); }
    hide Inv, Inherited, NextObserver, FirstObserver, Evidence, DiskNames, DiskReadable, PartsValid, PartsUsable, Bounded, NextReplay;
  }

  lemma ObservedState(w: World)
    requires Inv(w) && w.state.status == AdjudicationPartCompleted
    ensures w.state.adjudicationCompleted >= 1 && |w.state.batchIds| == w.state.adjudicationCompleted
    ensures |w.disk.completions| <= |w.disk.intents|
    ensures w.state.adjudicationCompleted > 1 ==> NextReplay(w.state)
  {
    hide JobInv, RequestInv, OutputInv, Dense, IntentInv, LogInv, FreshInv, CompletionInv, IdsInv;
  }

  lemma ObservedNames(w: World)
    requires Inv(w) && Inherited(w) && w.state.status == AdjudicationPartCompleted
    ensures Evidence(w.state, w.state.adjudicationCompleted, w.state.adjudicationCompleted).Accepts(DiskNames(w.disk))
            <==> |w.disk.intents| == |w.state.batchIds|
  {
    var (st, d, k) := (w.state, w.disk, w.state.adjudicationCompleted);
    RestingRecords(w);
    ObservedState(w);
    assert RequestInv(st, d);
    hide Live, Evidence, DiskNames, RequestInv, BaseNames, PrimaryFiles, PrimaryErrors;
    if |d.intents| == k {
      DiskIsEvidence(st, d, k, k, {});
      NothingMore(Evidence(st, k, k), DiskNames(d));
    } else {
      IntentIsRefused(st, d, k);
    }
  }

  lemma IntentIsRefused(st: State, d: Disk, k: nat)
    requires Dense(d.intents) && |d.intents| == k + 1
    ensures !Evidence(st, k, k).Accepts(DiskNames(d))
  {
    FreshName(st, k, k, k + 1, Intent);
    InNamesOf(Intent, k + 1, d.intents.Keys);
    assert PartName(Adjudication, k + 1, Intent) in DiskNames(d);
  }

  // ----------------------------------------------- what the next stage finds

  /** The adjudication-result worker holds every file to the same limit. */
  function ResultLimit(name: string): nat { FILE_MAX }

  /** The workflow's check of the whole adjudication stage: counts,
      identifiers, and every part with its journal and output. */
  ghost predicate StageComplete(st: State, d: Disk) {
    && st.adjudicationParts > 0 && st.adjudicationCompleted == st.adjudicationParts
    && |st.batchIds| == st.adjudicationParts && |st.inputIds| == st.adjudicationParts
    && IdsOk(st) && PartsValid(st, d, st.adjudicationParts)
  }

  /** The manifest earlier stages left. */
  function ManifestOf(d: Disk): Bytes { if SOURCE_MANIFEST in d.base then d.base[SOURCE_MANIFEST] else [] }

  /** The input of the adjudication-result worker: the reading, the shape check
      on the files as the worker sorts them, with no directory in the flat tree,
      and the adjudication stage of its workflow. */
  ghost predicate ResultWorkerAdmits(w: World, reader: Reader, canonical: State -> Bytes, root: Identity) {
    && Readable(DiskFiles(w.disk), ResultLimit)
    && ProcessingShape(Inventory(SortedBy(DiskFiles(w.disk), AdjudicationWorkerGroup), map[], root), w.state, reader, canonical)
    && StageComplete(w.state, w.disk)
  }

  /** What a finished directory still needs: files that can be read, the state
      file in canonical form, a manifest that names the reviewed outputs, known
      batch states and outputs of a readable size. */
  ghost predicate Processable(w: World, reader: Reader, canonical: State -> Bytes) {
    && Readable(DiskFiles(w.disk), ResultLimit)
    && w.disk.stateFile == canonical(w.state)
    && CompletedOutputs(reader, ManifestOf(w.disk)).Some?
    && PartsUsable(w.disk, w.state.adjudicationParts, w.state.adjudicationParts)
  }

  /** A finished run always has the names the adjudication-result worker wants,
      and the worker takes it exactly when it is processable. */
  lemma FinishedRunIsProcessable(w: World, events: seq<Event>, reader: Reader, canonical: State -> Bytes, root: Identity)
    requires Init(w) && Inherited(w)
    ensures var w' := Run(w, events);
      Finished(w') ==>
        && AdjudicationInput(DiskNames(w'.disk), w'.state)
        && (ResultWorkerAdmits(w', reader, canonical, root) <==> Processable(w', reader, canonical))
  {
    hide Run, Inherited, Finished, ResultWorkerAdmits, Processable, AdjudicationInput, DiskNames, RequestInv;
    InitInv(w);
    hide Inv, Init;
    RunKeepsInv(w, events);
    RunKeepsInherited(w, events);
    if Finished(Run(w, events)) {
      FinishedIsProcessable(Run(w, events));
      FinishedIsTaken(Run(w, events), reader, canonical, root);
    }
  }

  lemma FinishedIsTaken(w: World, reader: Reader, canonical: State -> Bytes, root: Identity)
    requires Inv(w) && Inherited(w) && Finished(w)
    ensures ResultWorkerAdmits(w, reader, canonical, root) <==> Processable(w, reader, canonical)
  {
    FinishedIsComplete(w);
    FinishedPartCounts(w);
    hide Inv, Inherited, Finished, Readable, PartsUsable, StageComplete, ProcessingShape, DiskFiles, CompletedOutputs;
    if Readable(DiskFiles(w.disk), ResultLimit) {
      FinishedShape(w, reader, canonical, root);
    }
  }

  lemma FinishedPartCounts(w: World)
    requires Inv(w)
    ensures w.state.primaryParts > 0 && w.state.adjudicationParts > 0
  {
    hide RequestInv, JournalInv, OutputInv, JobInv;
  }

  lemma FinishedIsComplete(w: World)
    requires Inv(w) && Finished(w)
    ensures StageComplete(w.state, w.disk) <==>
            PartsUsable(w.disk, w.state.adjudicationParts, w.state.adjudicationParts)
  {
    FinishedCounts(w);
    hide PartsUsable, PartsValid, IdsOk;
    IdsAreOk(w);
    PartsValidExactly(w);
  }

  lemma FinishedShape(w: World, reader: Reader, canonical: State -> Bytes, root: Identity)
    requires Inv(w) && Inherited(w) && Finished(w)
    requires RUN_STATE in DiskFiles(w.disk) && w.state.primaryParts > 0 && w.state.adjudicationParts > 0
    ensures ProcessingShape(Inventory(SortedBy(DiskFiles(w.disk), AdjudicationWorkerGroup), map[], root), w.state, reader, canonical)
            <==> w.disk.stateFile == canonical(w.state) && CompletedOutputs(reader, ManifestOf(w.disk)).Some?
  {
    hide ProcessingShape, DiskFiles, CompletedOutputs, Finished, AdjudicationInput, DiskNames, BaseRequests, PrimaryDerived,
         ManifestOf;
    FinishedIsProcessable(w);
    FinishedGroups(w);
    InheritedManifest(w);
    hide Inv, Inherited;
    DiskFilesNames(w.disk);
    DiskFilesAt(w.disk);
    ShapeOfFlatInput(DiskFiles(w.disk), w.state, reader, canonical, root);
  }

  lemma InheritedManifest(w: World)
    requires Inherited(w)
    ensures SOURCE_MANIFEST in w.disk.base && ManifestOf(w.disk) == w.disk.base[SOURCE_MANIFEST]
  {
    hide Parts, ExpectedJournals, PrimaryDerived, PrimaryErrors;
    assert SOURCE_MANIFEST in PrimaryFiles(w.state);
    assert SOURCE_MANIFEST in BaseNames(w.disk);
    assert SOURCE_MANIFEST[0] != RUN_STATE[0];
  }

  /** The state file and the manifest are read back as they were left. */
  lemma DiskFilesAt(d: Disk)
    requires SOURCE_MANIFEST in d.base
    ensures DiskFiles(d)[RUN_STATE] == d.stateFile
    ensures SOURCE_MANIFEST in DiskFiles(d) && DiskFiles(d)[SOURCE_MANIFEST] == d.base[SOURCE_MANIFEST]
  {
    hide DiskFiles, Filed, IntentBytes, CompletionBytes, TerminalFile;
    FilesByGroup(d);
    ManifestIsNoPart(Request, d.requests);
    ManifestIsNoPart(Intent, IntentBytes(d.intents));
    ManifestIsNoPart(Completed, CompletionBytes(d.completions));
    ManifestIsNoPart(Output, d.outputs);
    ManifestIsNoPart(ApiErrors, d.errors);
    ManifestIsNoTerminal(d.terminal);
    UnderLayers(d.base, Filed(Request, d.requests), Filed(Intent, IntentBytes(d.intents)),
                Filed(Completed, CompletionBytes(d.completions)), Filed(Output, d.outputs), Filed(ApiErrors, d.errors),
                TerminalFile(d.terminal), d.stateFile);
  }

  lemma ManifestIsNoTerminal(t: Option<Bytes>)
    ensures SOURCE_MANIFEST !in TerminalFile(t)
  {
    TerminalIsNoSource();
  }

  lemma UnderLayers(b: Contents, r: Contents, i: Contents, c: Contents, o: Contents, e: Contents, t: Contents, raw: Bytes)
    requires SOURCE_MANIFEST in b && SOURCE_MANIFEST !in r && SOURCE_MANIFEST !in i && SOURCE_MANIFEST !in c
    requires SOURCE_MANIFEST !in o && SOURCE_MANIFEST !in e && SOURCE_MANIFEST !in t
    ensures var all := b + r + i + c + o + e + t + map[RUN_STATE := raw];
      && RUN_STATE in all && all[RUN_STATE] == raw
      && SOURCE_MANIFEST in all && all[SOURCE_MANIFEST] == b[SOURCE_MANIFEST]
  {
    assert SOURCE_MANIFEST[0] != RUN_STATE[0];
  }

  lemma ManifestIsNoPart(k: Kind, m: map<nat, Bytes>)
    ensures SOURCE_MANIFEST !in Filed(k, m)
  {
    hide Filed, PartName;
    if SOURCE_MANIFEST in Filed(k, m) {
      var p := PartOf(k, m, SOURCE_MANIFEST);
      PartIsNotFixed(Adjudication, p, k);
    }
  }

  /** On the names of a finished run the shape check comes down to the two
      files it reads. */
  lemma ShapeOfFlatInput(files: Contents, st: State, reader: Reader, canonical: State -> Bytes, root: Identity)
    requires st.status == AdjudicationPartCompleted && st.primaryParts > 0 && st.adjudicationParts > 0
    requires RUN_STATE in files && SOURCE_MANIFEST in files && AdjudicationInput(files.Keys, st)
    requires Select(files.Keys, AdjudicationWorkerGroup, Derived) <= PrimaryDerived()
    ensures ProcessingShape(Inventory(SortedBy(files, AdjudicationWorkerGroup), map[], root), st, reader, canonical)
            <==> files[RUN_STATE] == canonical(st) && CompletedOutputs(reader, files[SOURCE_MANIFEST]).Some?
  {
    hide PrimaryDerived, AdjudicationDerived, AllJournals, RequiredOutputs, OptionalOutputs, RequestShape, CompletedOutputs,
         AdjudicationWorkerGroup;
    var rule := AdjudicationWorkerGroup;
    forall g { KeysOfGroup(files, rule, g); }
    var manifest := Of(files, rule, Artifacts)[SOURCE_MANIFEST];
    assert manifest == files[SOURCE_MANIFEST];
    if CompletedOutputs(reader, manifest).Some? {
      assert DerivedShape(Select(files.Keys, rule, Derived), {}, st, CompletedOutputs(reader, manifest).value);
    }
  }

  lemma KeysOfGroup(files: Contents, rule: string -> Group, g: Group)
    ensures Of(files, rule, g).Keys == Select(files.Keys, rule, g)
  {
  }

  lemma FinishedCounts(w: World)
    requires Inv(w) && Finished(w)
    ensures var m := w.state.adjudicationParts;
      && w.state.status == AdjudicationPartCompleted && m > 0
      && w.state.adjudicationCompleted == |w.state.batchIds| == |w.state.inputIds| == m
      && JournalInv(w.state, w.disk, w.log)
      && Dense(w.disk.intents) && Dense(w.disk.completions) && Dense(w.disk.outputs) && w.disk.errors.Keys <= w.disk.outputs.Keys
      && |w.disk.intents| == |w.disk.completions| == |w.disk.outputs| == m && w.disk.terminal.None?
  {
    hide RequestInv, JobInv, IntentInv, LogInv, FreshInv, CompletionInv, IdsInv;
  }

  lemma FinishedIsProcessable(w: World)
    requires Inv(w) && Inherited(w) && Finished(w)
    ensures AdjudicationInput(DiskNames(w.disk), w.state)
  {
    var (st, names) := (w.state, DiskNames(w.disk));
    var m := st.adjudicationParts;
    FinishedCounts(w);
    hide Live, JournalInv;
    DiskIsEvidence(st, w.disk, m, m, {});
    EvidenceGroups(st, names);
    AdjudicationInputIsInterval(names, st);
  }

  lemma FinishedGroups(w: World)
    requires Inv(w) && Inherited(w) && Finished(w)
    ensures w.state.status == AdjudicationPartCompleted
    ensures Select(DiskNames(w.disk), AdjudicationWorkerGroup, Derived) <= PrimaryDerived()
  {
    var m := w.state.adjudicationParts;
    FinishedCounts(w);
    hide Live, JournalInv;
    DiskIsEvidence(w.state, w.disk, m, m, {});
    EvidenceGroups(w.state, DiskNames(w.disk));
  }

  lemma EvidenceGroups(st: State, names: set<string>)
    requires var e := Evidence(st, st.adjudicationParts, st.adjudicationParts); names <= e.required + e.optional + {}
    ensures Select(names, AdjudicationWorkerGroup, Requests) <= BaseRequests(st)
    ensures Select(names, AdjudicationWorkerGroup, Derived) <= PrimaryDerived()
  {
    AdjudicationPieces(st);
    AllEvidence(st);
    RulesKeepStateApart();
    OnlyOneGroup(names, AdjudicationWorkerGroup, {CANDIDATES, SOURCE_MANIFEST}, BaseRequests(st), AllJournals(st),
                 RequiredOutputs(st), PrimaryDerived(), OptionalOutputs(st));
  }

  lemma OnlyOneGroup(names: set<string>, rule: string -> Group, a: set<string>, r: set<string>, j: set<string>,
                     o: set<string>, d: set<string>, e: set<string>)
    requires KeepsStateApart(rule)
    requires names <= {RUN_STATE} + a + r + j + o + d + e + {}
    requires AllIn(a, rule, Artifacts) && AllIn(r, rule, Requests) && AllIn(j, rule, Journals)
    requires AllIn(o, rule, Outputs) && AllIn(e, rule, Outputs) && AllIn(d, rule, Derived)
    ensures Select(names, rule, Requests) <= r && Select(names, rule, Derived) <= d
  {
  }

  // ------------------------------------------------------- rounds that fit

  /** Answers, outputs and texts within every reader's limits. */
  predicate Good(r: Round) {
    && AnswerOk(r.answer) && KnownStatus(r.answer.status) && Bounded(r.output)
    && (r.error.Some? ==> 0 < |r.error.value| <= FILE_MAX)
    && 0 < |r.intent| <= RECORD_MAX && 0 < |r.completed| <= RECORD_MAX
    && 0 < |r.submitted| <= STATE_MAX && 0 < |r.observed| <= STATE_MAX
  }

  function ErrorSize(e: Option<Bytes>): nat { if e.Some? then |e.value| else 0 }

  /** The bytes one part adds to the directory. */
  function Weight(r: Round): nat { |r.intent| + |r.completed| + |r.output| + ErrorSize(r.error) }

  /** Every directory on the way fits, with the state file it holds then. */
  predicate FitsOne(load: nat, r: Round) {
    && load + |r.intent| + |r.completed| + |r.submitted| <= TOTAL_MAX
    && load + Weight(r) + |r.observed| <= TOTAL_MAX
  }

  predicate Fits(load: nat, rounds: seq<Round>)
    decreases |rounds|
  {
    rounds == [] || (FitsOne(load, rounds[0]) && Fits(load + Weight(rounds[0]), rounds[1..]))
  }

  /** The provider can still hand out these answers, in this order. */
  predicate Supply(rounds: seq<Round>, log: seq<Submission>) {
    && (forall i :: 0 <= i < |rounds| ==> NewIds(log, rounds[i].answer))
    && (forall i, j :: 0 <= i < j < |rounds| ==>
          rounds[i].answer.batch != rounds[j].answer.batch && rounds[i].answer.input != rounds[j].answer.input)
  }

  lemma SupplyShrinks(rounds: seq<Round>, log: seq<Submission>, s: Submission)
    requires rounds != [] && Supply(rounds, log) && s.answer == rounds[0].answer
    ensures NewIds(log, rounds[0].answer) && Supply(rounds[1..], log + [s])
  {
    var rest := rounds[1..];
    forall i | 0 <= i < |rest|
      ensures NewIds(log + [s], rest[i].answer)
    {
      assert rest[i] == rounds[i + 1] && NewIds(log, rounds[i + 1].answer);
      forall t | t in log + [s]
        ensures t.answer.batch != rest[i].answer.batch && t.answer.input != rest[i].answer.input
      {
        assert t in log || t == s;
      }
    }
  }

  /** Nothing is pending, and every file is one a reader takes. */
  ghost predicate Healthy(w: World) {
    && w.job == Idle && Resting(w.state) && |w.disk.intents| == |w.state.batchIds|
    && PartsUsable(w.disk, |w.state.batchIds|, w.state.adjudicationCompleted)
    && AllSized(w.disk)
    && forall p :: p in w.disk.requests ==> Bounded(w.disk.requests[p])
  }

  lemma HealthyGoesOn(w: World)
    requires Inv(w) && Healthy(w) && Load(w.disk) + |w.disk.stateFile| <= TOTAL_MAX
    ensures DiskReadable(w.disk) && !Blocked(w)
    ensures w.state.adjudicationCompleted < w.state.adjudicationParts ==> !DeadEnd(w)
  {
    hide Inv, PartsUsable, Bounded, DiskReadable, Load;
    FittingDiskIsReadable(w.disk);
  }

  // ------------------------------------------------- one round, in the world

  lemma RoundIsWritable(r: Round)
    requires Good(r)
    ensures Writable(r)
  {
    hide AnswerOk, KnownStatus;
  }

  lemma SubmittedLoad(d: Disk, p: nat, r: Round)
    requires p in d.requests && p !in d.intents && p !in d.completions && Good(r) && AllSized(d)
    ensures var d' := d.(intents := d.intents[p := IntentRecord(d.requests[p], r.intent)],
                         completions := d.completions[p := Completion(d.requests[p], r.answer, r.completed)],
                         stateFile := r.submitted);
      AllSized(d') && Load(d') == Load(d) + |r.intent| + |r.completed|
  {
    hide Total, AnswerOk, KnownStatus;
    var i := d.intents[p := IntentRecord(d.requests[p], r.intent)];
    var c := d.completions[p := Completion(d.requests[p], r.answer, r.completed)];
    assert IntentBytes(i) == IntentBytes(d.intents)[p := r.intent];
    assert CompletionBytes(c) == CompletionBytes(d.completions)[p := r.completed];
    TotalInsert(IntentBytes(d.intents), p, r.intent);
    TotalInsert(CompletionBytes(d.completions), p, r.completed);
  }

  lemma ObservedLoad(d: Disk, p: nat, r: Round)
    requires p !in d.outputs && p !in d.errors && Good(r) && AllSized(d)
    ensures var d' := d.(outputs := d.outputs[p := r.output],
                         errors := if r.error.Some? then d.errors[p := r.error.value] else d.errors,
                         stateFile := r.observed);
      AllSized(d') && Load(d') == Load(d) + |r.output| + ErrorSize(r.error)
  {
    hide Total, AnswerOk, KnownStatus;
    TotalInsert(d.outputs, p, r.output);
    if r.error.Some? { TotalInsert(d.errors, p, r.error.value); }
  }

  lemma UsableSubmitted(d: Disk, d': Disk, k: nat, c: Completion)
    requires PartsUsable(d, k, k) && KnownStatus(c.answer.status)
    requires d'.completions == d.completions[k + 1 := c] && d'.outputs == d.outputs
    ensures PartsUsable(d', k + 1, k)
  {
    hide KnownStatus, Bounded;
  }

  lemma UsableObserved(d: Disk, d': Disk, k: nat, output: Bytes)
    requires PartsUsable(d, k + 1, k) && Bounded(output)
    requires d'.completions == d.completions && d'.outputs == d.outputs[k + 1 := output]
    ensures PartsUsable(d', k + 1, k + 1)
  {
    hide KnownStatus, Bounded;
  }

  function AfterRound(w: World, r: Round): World { AfterObserve(AfterSubmit(w, r), r) }

  lemma HealthyCounts(w: World)
    requires Inv(w) && Healthy(w)
    ensures w.state.adjudicationCompleted < w.state.adjudicationParts ==> Unrecorded(w)
  {
    hide AllSized, PartsUsable, Bounded;
    NoRecords(w);
    RestingCounts(w);
    RestingRecords(w);
    NextRequest(w);
    hide Inv;
  }

  predicate Unrecorded(w: World) {
    var d, p := w.disk, w.state.adjudicationCompleted + 1;
    && p in d.requests && p !in d.intents && p !in d.completions && p !in d.outputs && p !in d.errors
    && |d.outputs| == w.state.adjudicationCompleted == |w.state.batchIds| && d.terminal.None?
  }

  /** With room for the round, the submitted world is healthy enough to be
      polled. */
  lemma SubmittedGoesOn(w: World, r: Round)
    requires Healthy(w) && Good(r) && Unrecorded(w)
    requires FitsOne(Load(w.disk), r)
    ensures var w' := AfterSubmit(w, r);
      && !DeadEnd(w') && AllSized(w'.disk) && Load(w'.disk) == Load(w.disk) + |r.intent| + |r.completed|
      && PartsUsable(w'.disk, w.state.adjudicationCompleted + 1, w.state.adjudicationCompleted)
  {
    hide Load, DiskReadable, PartsUsable, Bounded, KnownStatus, AnswerOk, AllSized;
    var (d, p) := (w.disk, w.state.adjudicationCompleted + 1);
    var w' := AfterSubmit(w, r);
    SubmittedLoad(d, p, r);
    UsableSubmitted(d, w'.disk, p - 1, Completion(d.requests[p], r.answer, r.completed));
    FittingDiskIsReadable(w'.disk);
  }

  lemma ObservedIsHealthy(w: World, r: Round)
    requires w.job == Idle && AllSized(w.disk) && Good(r) && |w.state.batchIds| == w.state.adjudicationCompleted + 1
    requires w.state.adjudicationCompleted + 1 !in w.disk.outputs && w.state.adjudicationCompleted + 1 !in w.disk.errors
    requires |w.disk.intents| == |w.state.batchIds| && forall p :: p in w.disk.requests ==> Bounded(w.disk.requests[p])
    requires PartsUsable(w.disk, w.state.adjudicationCompleted + 1, w.state.adjudicationCompleted)
    ensures var w' := AfterObserve(w, r);
      Healthy(w') && Load(w'.disk) == Load(w.disk) + |r.output| + ErrorSize(r.error)
  {
    hide Load, PartsUsable, Bounded, KnownStatus, AnswerOk, AllSized;
    ObservedLoad(w.disk, w.state.adjudicationCompleted + 1, r);
    UsableObserved(w.disk, AfterObserve(w, r).disk, w.state.adjudicationCompleted, r.output);
  }

  // ------------------------------------------------------------ whole runs

  function RoundEvents(r: Round): seq<Event> { SubmitEvents(r) + ObserveEvents(r) }

  lemma RoundIsHealthy(w: World, r: Round)
    requires Healthy(w) && Good(r) && Unrecorded(w)
    requires FitsOne(Load(w.disk), r)
    ensures Healthy(AfterRound(w, r)) && Load(AfterRound(w, r).disk) == Load(w.disk) + Weight(r)
    ensures Load(AfterRound(w, r).disk) + |AfterRound(w, r).disk.stateFile| <= TOTAL_MAX
  {
    hide Load, DeadEnd, PartsUsable, AllSized, Good, Bounded;
    SubmittedGoesOn(w, r);
    var w1 := AfterSubmit(w, r);
    assert |w1.disk.intents| == |w.disk.intents| + 1;
    ObservedIsHealthy(w1, r);
  }

  lemma AfterSubmitIsIdle(w: World, r: Round)
    ensures AfterSubmit(w, r).job == Idle && AfterSubmit(w, r).state.status == AdjudicationSubmitted
  {
  }

  function AllEvents(rounds: seq<Round>): seq<Event> {
    if rounds == [] then [] else RoundEvents(rounds[0]) + AllEvents(rounds[1..])
  }

  /** One more part, submitted and observed. */
  lemma OneMorePart(w: World, r: Round)
    requires Inv(w) && Inherited(w) && Healthy(w) && w.state.adjudicationCompleted < w.state.adjudicationParts
    requires NewIds(w.log, r.answer) && Good(r)
    requires Load(w.disk) + |w.disk.stateFile| <= TOTAL_MAX && FitsOne(Load(w.disk), r)
    ensures var w' := Run(w, RoundEvents(r));
      && w' == AfterRound(w, r) && Inv(w') && Inherited(w') && Healthy(w')
      && Load(w'.disk) == Load(w.disk) + Weight(r) && Load(w'.disk) + |w'.disk.stateFile| <= TOTAL_MAX
  {
    HealthyIsSettled(w);
    hide Inv, Inherited, DeadEnd, Run, Good, Writable, Load, SubmitEvents, ObserveEvents, Healthy, AllSized, NewIds, Resting,
         AfterSubmit, AfterObserve, Unrecorded, Weight, PartsUsable, Blocked, DiskReadable, FitsOne;
    HealthyCounts(w);
    HealthyGoesOn(w);
    RoundIsWritable(r);
    RunAppend(w, SubmitEvents(r), ObserveEvents(r));
    RunKeepsInv(w, SubmitEvents(r));
    RunKeepsInherited(w, SubmitEvents(r));
    RunKeepsInv(w, RoundEvents(r));
    RunKeepsInherited(w, RoundEvents(r));
    SubmittingAPart(w, r);
    SubmittedGoesOn(w, r);
    AfterSubmitIsIdle(w, r);
    ObservingAPart(AfterSubmit(w, r), r);
    RoundIsHealthy(w, r);
  }

  lemma HealthyIsSettled(w: World)
    requires Healthy(w)
    ensures w.job == Idle && Resting(w.state) && |w.disk.intents| == |w.state.batchIds|
  {
    hide AllSized, PartsUsable, Bounded, Resting;
  }

  function AfterAll(w: World, rounds: seq<Round>): World
    decreases |rounds|
  {
    if rounds == [] then w else AfterAll(AfterRound(w, rounds[0]), rounds[1..])
  }

  /** The provider's batch, the output and the error file of one part, as the
      provider answered. */
  predicate Holds(w: World, request: Bytes, p: nat, call: nat, r: Round) {
    && call < |w.log| && w.log[call] == Submission(p, request, r.answer)
    && p in w.disk.outputs && w.disk.outputs[p] == r.output
    && (p in w.disk.errors <==> r.error.Some?)
    && (r.error.Some? ==> w.disk.errors[p] == r.error.value)
  }

  /** Each round in its place, from the first part `w` had not completed. */
  predicate AllHold(w': World, w: World, rounds: seq<Round>) {
    forall i :: 0 <= i < |rounds| ==>
      var p := w.state.adjudicationCompleted + 1 + i;
      Holds(w', RequestOf(w.disk, p), p, |w.log| + i, rounds[i])
  }

  lemma {:induction false} AfterStays(w: World, rounds: seq<Round>, request: Bytes, p: nat, call: nat, r: Round)
    requires Holds(w, request, p, call, r) && p <= w.state.adjudicationCompleted
    ensures Holds(AfterAll(w, rounds), request, p, call, r)
    decreases |rounds|
  {
    if rounds != [] { AfterStays(AfterRound(w, rounds[0]), rounds[1..], request, p, call, r); }
  }

  lemma {:induction false} AfterCounts(w: World, rounds: seq<Round>)
    ensures var w' := AfterAll(w, rounds);
      && w'.state.adjudicationCompleted == w.state.adjudicationCompleted + |rounds|
      && |w'.log| == |w.log| + |rounds|
    decreases |rounds|
  {
    if rounds != [] { AfterCounts(AfterRound(w, rounds[0]), rounds[1..]); }
  }

  lemma {:induction false} AfterSaved(w: World, rounds: seq<Round>)
    requires rounds != []
    ensures AfterAll(w, rounds).disk.stateFile == rounds[|rounds| - 1].observed
    decreases |rounds|
  {
    hide AfterSubmit;
    if |rounds| > 1 { AfterSaved(AfterRound(w, rounds[0]), rounds[1..]); }
  }

  /** Every round is stored, in order, from the first part not completed. */
  lemma {:induction false} AfterHolds(w: World, rounds: seq<Round>, i: nat)
    requires i < |rounds| && forall p :: p in w.disk.errors ==> p <= w.state.adjudicationCompleted
    ensures var p := w.state.adjudicationCompleted + 1 + i;
      Holds(AfterAll(w, rounds), RequestOf(w.disk, p), p, |w.log| + i, rounds[i])
    decreases |rounds|
  {
    hide AfterRound, Holds, RequestOf;
    var w1 := AfterRound(w, rounds[0]);
    var p := w.state.adjudicationCompleted + 1;
    RoundHolds(w, rounds[0]);
    if i == 0 {
      AfterStays(w1, rounds[1..], RequestOf(w.disk, p), p, |w.log|, rounds[0]);
    } else {
      AfterHolds(w1, rounds[1..], i - 1);
    }
  }

  lemma RoundHolds(w: World, r: Round)
    requires forall p :: p in w.disk.errors ==> p <= w.state.adjudicationCompleted
    ensures var (w', p) := (AfterRound(w, r), w.state.adjudicationCompleted + 1);
      && Holds(w', RequestOf(w.disk, p), p, |w.log|, r)
      && w'.state.adjudicationCompleted == p && |w'.log| == |w.log| + 1
      && (forall q :: q in w'.disk.errors ==> q <= p)
      && (forall q :: RequestOf(w'.disk, q) == RequestOf(w.disk, q))
  {
  }

  lemma {:induction false} RunIsAfter(w: World, rounds: seq<Round>)
    requires Inv(w) && Inherited(w) && Healthy(w)
    requires |rounds| <= w.state.adjudicationParts - w.state.adjudicationCompleted
    requires Supply(rounds, w.log) && forall i :: 0 <= i < |rounds| ==> Good(rounds[i])
    requires Load(w.disk) + |w.disk.stateFile| <= TOTAL_MAX && Fits(Load(w.disk), rounds)
    ensures var w' := Run(w, AllEvents(rounds));
      && w' == AfterAll(w, rounds) && Inv(w') && Inherited(w') && Healthy(w')
      && Load(w'.disk) + |w'.disk.stateFile| <= TOTAL_MAX
    decreases |rounds|
  {
    hide Inv, Inherited, Healthy, Run, Good, Supply, Load, RoundEvents, Weight, AfterObserve, AfterSubmit, FitsOne;
    if rounds == [] {
      RunNothing(w);
    } else {
      var (r, rest) := (rounds[0], rounds[1..]);
      SupplyFirst(rounds, w.log);
      OneMorePart(w, r);
      var w1 := AfterRound(w, r);
      SubmissionLogged(w, r);
      SupplyShrinks(rounds, w.log, w1.log[|w.log|]);
      RunAppend(w, RoundEvents(r), AllEvents(rest));
      RunIsAfter(w1, rest);
    }
  }

  lemma RunNothing(w: World)
    ensures Run(w, []) == w
  {
  }

  lemma SupplyFirst(rounds: seq<Round>, log: seq<Submission>)
    requires rounds != [] && Supply(rounds, log)
    ensures NewIds(log, rounds[0].answer)
  {
  }

  lemma SubmissionLogged(w: World, r: Round)
    ensures var w' := AfterRound(w, r);
      && |w'.log| == |w.log| + 1 && w'.log == w.log + [w'.log[|w.log|]] && w'.log[|w.log|].answer == r.answer
      && w'.state.adjudicationCompleted == w.state.adjudicationCompleted + 1
      && w'.state.adjudicationParts == w.state.adjudicationParts
  {
  }

  /** Every run can be finished.  From any point at which nothing is pending
      and every file is one a reader takes, whatever the provider answers to
      the parts left, in known batch states, with files no reader refuses and
      directories that fit at every step: the run ends finished, with one batch per part and
      exactly those outputs and error files.  The last text saved is the state
    file. */
  lemma RunCanFinish(w: World, rounds: seq<Round>)
    requires Inv(w) && Inherited(w) && Healthy(w)
    requires |rounds| == w.state.adjudicationParts - w.state.adjudicationCompleted
    requires Supply(rounds, w.log) && forall i :: 0 <= i < |rounds| ==> Good(rounds[i])
    requires Load(w.disk) + |w.disk.stateFile| <= TOTAL_MAX && Fits(Load(w.disk), rounds)
    ensures var w' := Run(w, AllEvents(rounds));
      && Inv(w') && Finished(w') && w'.job == Idle && DiskReadable(w'.disk)
      && PartsUsable(w'.disk, w.state.adjudicationParts, w.state.adjudicationParts)
      && |w'.log| == |w.log| + |rounds|
    ensures AllHold(Run(w, AllEvents(rounds)), w, rounds)
    ensures rounds != [] ==> Run(w, AllEvents(rounds)).disk.stateFile == rounds[|rounds| - 1].observed
  {
    hide Inv, Inherited, Run, Good, Supply, Load, AllEvents, AfterAll, AllHold, Healthy, Resting, DeadEnd, Blocked,
         PartsUsable, DiskReadable, Extends;
    var w' := Run(w, AllEvents(rounds));
    RunIsAfter(w, rounds);
    AfterCounts(w, rounds);
    if rounds != [] { AfterSaved(w, rounds); }
    HealthyIsSettled(w);
    ErrorsAreOld(w);
    AfterAllHold(w, rounds);
    PartCountStays(w, AllEvents(rounds));
    HealthyGoesOn(w');
    HealthyIsSettled(w');
    HealthyIsUsable(w');
  }

  lemma AfterAllHold(w: World, rounds: seq<Round>)
    requires forall p :: p in w.disk.errors ==> p <= w.state.adjudicationCompleted
    ensures AllHold(AfterAll(w, rounds), w, rounds)
  {
    hide AfterAll, Holds, RequestOf;
    forall i | 0 <= i < |rounds|
      ensures var p := w.state.adjudicationCompleted + 1 + i;
        Holds(AfterAll(w, rounds), RequestOf(w.disk, p), p, |w.log| + i, rounds[i])
    {
      AfterHolds(w, rounds, i);
    }
  }

  lemma HealthyIsUsable(w: World)
    requires Inv(w) && Healthy(w)
    ensures PartsUsable(w.disk, w.state.adjudicationCompleted, w.state.adjudicationCompleted)
  {
    hide AllSized, PartsUsable, Bounded;
    RestingCounts(w);
    hide Inv;
  }

  lemma ErrorsAreOld(w: World)
    requires Inv(w) && Resting(w.state)
    ensures forall p :: p in w.disk.errors ==> p <= w.state.adjudicationCompleted
  {
    RestingRecords(w);
    hide Live, RequestInv;
  }

  // ------------------------------------------------------- a run from the start

  /** The state primary processing leaves when it prepares adjudication. */
  predicate Prepared(st: State) {
    && st.status == AdjudicationPrepared && st.primaryParts >= 1 && st.adjudicationParts >= 1
    && st.adjudicationCompleted == 0
    && st.batchIds == [] && st.inputIds == [] && st.batchId == None && st.inputId == None
  }

  function PreparedRequests(n: nat, content: nat -> Bytes): map<nat, Bytes> { map p: nat | 1 <= p <= n :: content(p) }

  lemma {:induction false} RequestsAreDense(n: nat, content: nat -> Bytes)
    ensures Dense(PreparedRequests(n, content)) && |PreparedRequests(n, content)| == n
  {
    if n == 0 {
      assert PreparedRequests(0, content) == map[];
    } else {
      RequestsAreDense(n - 1, content);
      assert n !in PreparedRequests(n - 1, content);
      assert PreparedRequests(n, content) == PreparedRequests(n - 1, content)[n := content(n)];
    }
  }

  /** The world of a prepared run: its files, and a provider that has seen
      nothing of it. */
  function StartOf(st: State, base: Contents, saved: Bytes, content: nat -> Bytes): World {
    World(st, Disk(base, saved, PreparedRequests(st.adjudicationParts, content), map[], map[], map[], map[], None), [], Idle)
  }

  /** A prepared directory every reader takes. */
  ghost predicate PreparedDirectory(st: State, base: Contents, saved: Bytes, content: nat -> Bytes) {
    && RUN_STATE !in base && Within(base.Keys + {RUN_STATE}, PrimaryFiles(st) + PrimaryDerived(), PrimaryErrors(st))
    && Sized(base) && 0 < |saved| <= STATE_MAX
    && forall p: nat :: 1 <= p <= st.adjudicationParts ==> Bounded(content(p))
  }

  lemma StartIsInit(st: State, base: Contents, saved: Bytes, content: nat -> Bytes)
    requires Prepared(st) && PreparedDirectory(st, base, saved, content)
    ensures var w := StartOf(st, base, saved, content); Init(w) && Inherited(w) && Healthy(w)
  {
    RequestsAreDense(st.adjudicationParts, content);
    StartIsSized(st, base, saved, content);
    NothingToLookBackAt(StartOf(st, base, saved, content).disk);
    hide PrimaryFiles, PrimaryErrors, PrimaryDerived, Dense, Bounded, Sized, AllSized, PartsUsable, Within;
  }

  lemma StartIsSized(st: State, base: Contents, saved: Bytes, content: nat -> Bytes)
    requires PreparedDirectory(st, base, saved, content)
    ensures AllSized(StartOf(st, base, saved, content).disk)
  {
    hide Within, PrimaryFiles, PrimaryErrors, PrimaryDerived;
  }

  lemma ReadableForResults(d: Disk)
    requires DiskReadable(d)
    ensures Readable(DiskFiles(d), ResultLimit)
  {
    hide DiskFiles, Total;
  }

  lemma NothingAtInit(w: World)
    requires Init(w)
    ensures w.state.adjudicationCompleted == 0 && w.log == []
  {
  }

  lemma PartCountStays(w: World, events: seq<Event>)
    ensures Run(w, events).state.adjudicationParts == w.state.adjudicationParts
  {
    hide Run;
    EvidenceIsFrozen(w, events);
  }

  lemma FinishedStartIsTaken(w: World, rounds: seq<Round>, reader: Reader, canonical: State -> Bytes, root: Identity)
    requires Init(w) && Inherited(w) && Healthy(w) && |rounds| == w.state.adjudicationParts && rounds != []
    requires Supply(rounds, w.log) && forall i :: 0 <= i < |rounds| ==> Good(rounds[i])
    requires Load(w.disk) + |w.disk.stateFile| <= TOTAL_MAX && Fits(Load(w.disk), rounds)
    ensures var w' := Run(w, AllEvents(rounds));
      && Finished(w') && |w'.log| == w.state.adjudicationParts
      && (ResultWorkerAdmits(w', reader, canonical, root) <==>
            rounds[|rounds| - 1].observed == canonical(w'.state) && CompletedOutputs(reader, ManifestOf(w.disk)).Some?)
    ensures AllHold(Run(w, AllEvents(rounds)), w, rounds)
  {
    hide Run, Inv, AdjudicationInput, Init, Inherited, Supply, Healthy, AllEvents, Holds, ResultWorkerAdmits, Good, RequestOf,
         Load, Fits, DiskReadable, Readable, PartsUsable, Finished, Extends, CompletedOutputs, DiskNames, DiskFiles;
    InitInv(w);
    NothingAtInit(w);
    RunCanFinish(w, rounds);
    var w' := Run(w, AllEvents(rounds));
    PartCountStays(w, AllEvents(rounds));
    BaseStays(w, AllEvents(rounds));
    FinishedRunIsProcessable(w, AllEvents(rounds), reader, canonical, root);
    ReadableForResults(w'.disk);
  }

  lemma BaseStays(w: World, events: seq<Event>)
    ensures Run(w, events).disk.base == w.disk.base
  {
    hide Run;
    EvidenceIsFrozen(w, events);
  }

  lemma RequestOfStart(st: State, base: Contents, saved: Bytes, content: nat -> Bytes, p: nat)
    requires 1 <= p <= st.adjudicationParts
    ensures RequestOf(StartOf(st, base, saved, content).disk, p) == content(p)
  {
  }

  /** From every prepared state and directory, whatever its files hold and
      whatever the provider answers within the limits, the run ends with exactly
      one batch per part and exactly the provider's outputs and error files.
      The adjudication-result worker takes the directory exactly when the last
      text saved is the canonical one and the manifest names the reviewed
      outputs. */
  lemma EveryPreparedRunCanBeProcessed(st: State, base: Contents, saved: Bytes, content: nat -> Bytes, rounds: seq<Round>,
                                       reader: Reader, canonical: State -> Bytes, root: Identity)
    requires Prepared(st) && PreparedDirectory(st, base, saved, content)
    requires |rounds| == st.adjudicationParts && Supply(rounds, []) && forall i :: 0 <= i < |rounds| ==> Good(rounds[i])
    requires var load := Load(StartOf(st, base, saved, content).disk); load + |saved| <= TOTAL_MAX && Fits(load, rounds)
    ensures var (start, last) := (StartOf(st, base, saved, content), rounds[|rounds| - 1]);
      var w := Run(start, AllEvents(rounds));
      && Finished(w) && |w.log| == st.adjudicationParts
      && (ResultWorkerAdmits(w, reader, canonical, root) <==>
            last.observed == canonical(w.state) && CompletedOutputs(reader, ManifestOf(start.disk)).Some?)
    ensures forall i :: 0 <= i < |rounds| ==>
      Holds(Run(StartOf(st, base, saved, content), AllEvents(rounds)), content(i + 1), i + 1, i, rounds[i])
  {
    hide Run, Init, Inherited, Supply, Healthy, AllEvents, Holds, ResultWorkerAdmits, Good, PreparedDirectory, Load, Fits,
         Finished, RequestOf, CompletedOutputs;
    var w := StartOf(st, base, saved, content);
    StartIsInit(st, base, saved, content);
    FinishedStartIsTaken(w, rounds, reader, canonical, root);
    forall i | 0 <= i < |rounds|
      ensures Holds(Run(w, AllEvents(rounds)), content(i + 1), i + 1, i, rounds[i])
    {
      RequestOfStart(st, base, saved, content, i + 1);
    }
  }
}
