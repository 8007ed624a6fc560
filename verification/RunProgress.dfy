/** How far a run can get: the dead ends, exactly, and what one part changes
    when nothing interrupts it. */
module RunProgress {
  import opened Names
  import opened Groups
  import opened RunState
  import opened Files
  import opened Inventories
  import opened HandOff
  import opened RunDisk
  import opened RunMachine
  import opened RunSafety
  import opened RunInvariant

  // ------------------------------------------------------------- dead ends

  /** A lone intent: the provider may or may not have the batch. */
  predicate Unreconciled(w: World) {
    Resting(w.state) && |w.disk.intents| == |w.state.batchIds| + 1 && |w.disk.completions| == |w.state.batchIds|
  }

  /** Evidence of the active part is stored, the state was not saved. */
  predicate StoredUnsaved(w: World) {
    && w.state.status == AdjudicationSubmitted
    && (|w.disk.outputs| == w.state.adjudicationCompleted + 1 || w.disk.terminal.Some?)
  }

  predicate Finished(w: World) {
    Resting(w.state) && w.state.adjudicationCompleted == w.state.adjudicationParts
  }

  /** What no reader takes: a file that is empty or too long, too many bytes in
      all, a recorded batch state the look back does not know, an output or a
      next request too long to be read back. */
  ghost predicate Blocked(w: World) {
    var d, k := w.disk, w.state.adjudicationCompleted;
    || !DiskReadable(d)
    || (k > 0 && !PartsUsable(d, |w.state.batchIds|, k))
    || (Resting(w.state) && k + 1 in d.requests && !Bounded(d.requests[k + 1]))
  }

  /** The states no worker leaves. */
  ghost predicate DeadEnd(w: World) {
    w.job == Idle &&
    (w.state.status == Failed || Finished(w) || Unreconciled(w) || StoredUnsaved(w) || Blocked(w))
  }

  lemma SubmissionAtDeadEnd(w: World, raw: Bytes)
    requires Inv(w) && DeadEnd(w)
    ensures Start(w, raw) == w
  {
    hide SubmissionAdmits, Inv, PartsUsable, DiskReadable, DeadEnd, Submit;
    if SubmissionAdmits(w) {
      SubmissionNeedsAPart(w);
      AdmittedSubmissionReads(w);
      SubmitAtDeadEnd(w, raw);
    }
  }

  lemma SubmitAtDeadEnd(w: World, raw: Bytes)
    requires Inv(w) && DeadEnd(w)
    requires Resting(w.state) && DiskReadable(w.disk) && w.state.adjudicationCompleted < w.state.adjudicationParts
    requires w.state.adjudicationCompleted > 0 ==> PartsUsable(w.disk, |w.state.batchIds|, w.state.adjudicationCompleted)
    ensures Submit(w, raw) == w
  {
    hide Inv, PartsUsable, DiskReadable, Bounded;
    if Unreconciled(w) { LoneIntent(w); }
  }

  lemma AdmittedSubmissionReads(w: World)
    requires SubmissionAdmits(w)
    ensures Resting(w.state) && DiskReadable(w.disk)
    ensures w.state.adjudicationCompleted > 0 ==> PartsUsable(w.disk, |w.state.batchIds|, w.state.adjudicationCompleted)
  {
    hide DiskReadable, PartsValid, RecordValid, PartsUsable, IdsOk, FirstSubmission, NextSubmission, DiskNames;
    if w.state.status == AdjudicationPartCompleted { ValidIsUsable(w.state, w.disk, w.state.adjudicationCompleted); }
  }

  lemma LoneIntent(w: World)
    requires Inv(w) && Unreconciled(w)
    ensures w.state.adjudicationCompleted + 1 in w.disk.intents && w.state.adjudicationCompleted + 1 !in w.disk.completions
  {
    hide JobInv, OutputInv, RequestInv;
  }

  lemma ObservationAtDeadEnd(w: World, job: Job)
    requires Inv(w) && DeadEnd(w)
    ensures Poll(w, job) == w
  {
    hide ObserverAdmits, Inv, PartsUsable, DiskReadable;
    if ObserverAdmits(w) {
      AdmittedIsUnstored(w);
      AdmittedObserverReads(w);
    }
  }

  lemma AdmittedObserverReads(w: World)
    requires ObserverAdmits(w)
    ensures DiskReadable(w.disk)
    ensures w.state.adjudicationCompleted > 0 ==> PartsUsable(w.disk, |w.state.batchIds|, w.state.adjudicationCompleted)
  {
    hide DiskReadable, PartsValid, RecordValid, PartsUsable, IdsOk, FirstObserver, NextObserver, DiskNames;
    if w.state.adjudicationCompleted > 0 { ValidIsUsable(w.state, w.disk, w.state.adjudicationCompleted); }
  }

  lemma AdvanceAtDeadEnd(w: World, e: Event)
    requires w.job == Idle
    ensures Advance(w, e) == w
  {
  }

  lemma DeadIsIdle(w: World)
    requires DeadEnd(w)
    ensures w.job == Idle
  {
    hide Blocked, Unreconciled, StoredUnsaved, Finished;
  }

  lemma NextAtDeadEnd(w: World, e: Event)
    requires Inv(w) && DeadEnd(w)
    ensures Next(w, e) == w
  {
    hide Inv, Start, Poll, Advance, DeadEnd;
    DeadIsIdle(w);
    match e {
      case StartSubmit(raw) => SubmissionAtDeadEnd(w, raw);
      case PollCompleted(output, error) => ObservationAtDeadEnd(w, StoringOutput(output, error));
      case PollFailed(evidence) => ObservationAtDeadEnd(w, StoringTerminal(evidence));
      case PollWaiting =>
      case _ => AdvanceAtDeadEnd(w, e);
    }
  }

  /** Failed runs, finished runs, runs with a lone intent, runs whose last
      observation was stored but not saved, and runs with something no reader
      takes never change again by themselves. */
  lemma {:induction false} DeadEndsAreFinal(w: World, events: seq<Event>)
    requires Inv(w) && DeadEnd(w)
    ensures Run(w, events) == w
    decreases |events|
  {
    hide Next, Inv, DeadEnd;
    if events != [] {
      NextAtDeadEnd(w, events[0]);
      DeadEndsAreFinal(w, events[1..]);
    }
  }

  /** And those are all the dead ends: any other resting worker can go on. */
  lemma DeadEndExactly(w: World)
    requires Inv(w) && Inherited(w) && w.job == Idle
    ensures (forall e :: Next(w, e) == w) <==> DeadEnd(w)
  {
    hide Inv, Inherited, DeadEnd, Start, Poll, Advance, Resting;
    if DeadEnd(w) {
      forall e { NextAtDeadEnd(w, e); }
    } else if Resting(w.state) {
      StartMoves(w, [0]);
      assert Next(w, StartSubmit([0])) != w;
    } else {
      PollStarts(w, StoringTerminal([]));
      assert Next(w, PollFailed([])) != w;
    }
  }

  // ------------------------------------------------------------- going on

  lemma SubmissionGoesOn(w: World)
    requires Inv(w) && Inherited(w) && w.job == Idle && !DeadEnd(w) && Resting(w.state)
    ensures SubmissionAdmits(w) && !Unreconciled(w)
    ensures w.state.adjudicationCompleted + 1 in w.disk.requests && Bounded(w.disk.requests[w.state.adjudicationCompleted + 1])
    ensures w.state.adjudicationCompleted < w.state.adjudicationParts
  {
    hide SubmissionAdmits, Inv, Inherited, DiskReadable, PartsUsable, Bounded, StateInv, StoredUnsaved, Unreconciled;
    RestingCounts(w);
    SubmissionAdmissionExact(w);
    NextRequest(w);
    if w.state.adjudicationCompleted == 0 { NothingToLookBackAt(w.disk); }
  }

  lemma NothingToLookBackAt(d: Disk)
    ensures PartsUsable(d, 0, 0)
  {
  }

  lemma NextRequest(w: World)
    requires Inv(w) && Resting(w.state)
    ensures w.state.adjudicationCompleted <= w.state.adjudicationParts
    ensures w.state.adjudicationCompleted < w.state.adjudicationParts ==> w.state.adjudicationCompleted + 1 in w.disk.requests
  {
    hide JobInv, JournalInv, OutputInv;
  }

  lemma StartMoves(w: World, raw: Bytes)
    requires Inv(w) && Inherited(w) && w.job == Idle && !DeadEnd(w) && Resting(w.state) && |raw| == 1
    ensures Start(w, raw).job != Idle
  {
    hide Inherited, DeadEnd, SubmissionAdmits;
    SubmissionGoesOn(w);
    JournalAtRest(w);
    hide Inv, Unreconciled, Bounded;
  }

  /** With both records the recorded batch is reused; with none, the provider
      is called. */
  lemma JournalAtRest(w: World)
    requires Inv(w) && Resting(w.state) && w.state.adjudicationCompleted < w.state.adjudicationParts && !Unreconciled(w)
    ensures var (d, p) := (w.disk, w.state.adjudicationCompleted + 1);
      && p in d.requests
      && (p in d.intents <==> p in d.completions)
      && (p in d.completions ==>
            d.intents[p].request == d.requests[p] == d.completions[p].request && |w.log| == p
            && w.log[p - 1].answer == d.completions[p].answer)
  {
    hide JobInv, OutputInv, FreshInv, IdsInv;
    NextRecords(w.state.adjudicationCompleted, w.disk, w.log);
  }

  lemma NextRecords(n: nat, d: Disk, log: seq<Submission>)
    requires Dense(d.requests) && Dense(d.intents) && Dense(d.completions) && n < |d.requests|
    requires n <= |d.completions| <= |log| <= |d.intents| <= n + 1 && (|d.intents| == n + 1 ==> |d.completions| == n + 1)
    requires IntentInv(d.intents, d.requests) && LogInv(log, d.requests) && CompletionInv(d.completions, log)
    ensures n + 1 in d.requests && (n + 1 in d.intents <==> n + 1 in d.completions)
    ensures n + 1 in d.completions ==>
      && d.intents[n + 1].request == d.requests[n + 1] == d.completions[n + 1].request && |log| == n + 1
      && log[n].answer == d.completions[n + 1].answer
  {
    hide AnswerOk, Bounded;
    if n + 1 in d.completions { assert log[n].part == n + 1; }
  }

  /** Any submitted run that is no dead end can be polled. */
  lemma PollStarts(w: World, job: Job)
    requires Inv(w) && Inherited(w) && w.job == Idle && !DeadEnd(w) && !Resting(w.state)
    ensures Poll(w, job) == w.(job := job)
    ensures w.state.status == AdjudicationSubmitted
    ensures |w.disk.outputs| == w.state.adjudicationCompleted && w.disk.terminal.None?
    ensures w.state.adjudicationCompleted + 1 !in w.disk.outputs && w.state.adjudicationCompleted + 1 !in w.disk.errors
  {
    SubmittedOrFailed(w);
    ObserverAdmissionExact(w);
    hide ObserverAdmits, Inv, Inherited, DiskReadable, PartsUsable;
  }

  lemma SubmittedOrFailed(w: World)
    requires Inv(w) && !Resting(w.state)
    ensures w.state.status in {AdjudicationSubmitted, Failed}
    ensures w.state.status == AdjudicationSubmitted ==>
      && |w.state.batchIds| == w.state.adjudicationCompleted + 1
      && (|w.disk.outputs| == w.state.adjudicationCompleted + 1 || |w.disk.outputs| == w.state.adjudicationCompleted)
    ensures |w.disk.outputs| == w.state.adjudicationCompleted ==>
      w.state.adjudicationCompleted + 1 !in w.disk.outputs && w.state.adjudicationCompleted + 1 !in w.disk.errors
  {
    hide JobInv, RequestInv, JournalInv;
  }

  // ------------------------------------------------------------- recovery

  /** A crash after the completed record was written loses nothing: the next
      submission reuses the recorded batch without calling the provider. */
  lemma RecoveryReusesTheBatch(w: World, raw: Bytes, now: string, saved: Bytes)
    requires Inv(w) && Inherited(w) && w.job == Idle && !DeadEnd(w)
    requires Resting(w.state) && |w.disk.completions| == |w.state.batchIds| + 1 && 0 < |saved| <= FILE_MAX
    ensures var w' := Run(w, [StartSubmit(raw), SaveSubmitted(now, saved)]);
      && w'.state.status == AdjudicationSubmitted && w'.job == Idle && w'.log == w.log
      && w'.disk == w.disk.(stateFile := saved)
      && |w.log| == |w.state.batchIds| + 1
      && w'.state.batchIds == w.state.batchIds + [w.log[|w.log| - 1].answer.batch]
      && w'.state.inputIds == w.state.inputIds + [w.log[|w.log| - 1].answer.input]
  {
    hide Inherited, DeadEnd, Start, SaveSubmission, Resting, StateInv, SubmissionAdmits;
    CountsAtRest(w);
    SubmissionGoesOn(w);
    JournalAtRest(w);
    hide Inv, Bounded;
    RunTwo(w, StartSubmit(raw), SaveSubmitted(now, saved));
    StartReuses(w, raw);
    SaveReused(w, w.log[|w.log| - 1].answer.batch, w.log[|w.log| - 1].answer.input, now, saved);
  }

  lemma SaveReused(w: World, batch: string, input: string, now: string, saved: Bytes)
    requires 0 < |saved| <= FILE_MAX
    ensures SaveSubmission(w.(job := SavingSubmitted(batch, input)), now, saved)
      == w.(state := Submitted(w.state, batch, input, now), disk := w.disk.(stateFile := saved), job := Idle)
  {
  }

  lemma CountsAtRest(w: World)
    requires Inv(w) && Resting(w.state) && |w.disk.completions| == |w.state.batchIds| + 1
    ensures |w.state.batchIds| == w.state.adjudicationCompleted < w.state.adjudicationParts
    ensures |w.log| == |w.state.batchIds| + 1 && w.state.adjudicationCompleted + 1 in w.disk.completions
  {
    hide JobInv, OutputInv, RequestInv;
  }

  lemma StartReuses(w: World, raw: Bytes)
    requires w.job == Idle && SubmissionAdmits(w)
    requires var (d, p) := (w.disk, w.state.adjudicationCompleted + 1);
      && p in d.requests && Bounded(d.requests[p]) && p in d.intents && p in d.completions
      && d.intents[p].request == d.requests[p] == d.completions[p].request
    ensures var c := w.disk.completions[w.state.adjudicationCompleted + 1];
      Start(w, raw) == w.(job := SavingSubmitted(c.answer.batch, c.answer.input))
  {
    hide SubmissionAdmits;
  }

  lemma RunTwo(w: World, a: Event, b: Event)
    ensures Run(w, [a, b]) == Next(Next(w, a), b)
  {
    hide Next;
    assert [a, b][1..] == [b] && [b][1..] == [];
    assert Run(Next(w, a), [b]) == Run(Next(Next(w, a), b), []);
  }

  lemma RunFour(w: World, a: Event, b: Event, c: Event, d: Event)
    ensures Run(w, [a, b, c, d]) == Next(Next(Next(Next(w, a), b), c), d)
  {
    hide Next;
    assert [a, b, c, d][1..] == [b, c, d] && [b, c, d][1..] == [c, d];
    assert Run(w, [a, b, c, d]) == Run(Next(w, a), [b, c, d]) == Run(Next(Next(w, a), b), [c, d]);
    RunTwo(Next(Next(w, a), b), c, d);
  }

  lemma RunThree(w: World, a: Event, b: Event, c: Event)
    ensures Run(w, [a, b, c]) == Next(Next(Next(w, a), b), c)
  {
    hide Next;
    assert [a, b, c][1..] == [b, c];
    assert Run(w, [a, b, c]) == Run(Next(w, a), [b, c]);
    RunTwo(Next(w, a), b, c);
  }

  // --------------------------------------------------- one part, uninterrupted

  /** What the provider and the serialisers bring to one part. */
  datatype Round = Round(answer: Answer, output: Bytes, error: Option<Bytes>, now: string,
                         intent: Bytes, completed: Bytes, submitted: Bytes, observed: Bytes)

  function SubmitEvents(r: Round): seq<Event> {
    [StartSubmit(r.intent), ProviderAccepts(r.answer), RecordCompletion(r.completed), SaveSubmitted(r.now, r.submitted)]
  }

  function ObserveEvents(r: Round): seq<Event> {
    [PollCompleted(r.output, r.error), WriteOutput, WriteError, SaveObserved(r.now, r.observed)]
  }

  /** Nothing a write refuses. */
  predicate Writable(r: Round) {
    && AnswerOk(r.answer)
    && 0 < |r.intent| <= RECORD_MAX && 0 < |r.completed| <= RECORD_MAX
    && 0 < |r.submitted| <= FILE_MAX && 0 < |r.observed| <= FILE_MAX
    && |r.output| <= FILE_MAX && (r.error.Some? ==> |r.error.value| <= FILE_MAX)
  }

  function RequestOf(d: Disk, p: nat): Bytes { if p in d.requests then d.requests[p] else [] }

  function AfterSubmit(w: World, r: Round): World {
    var st, d, p := w.state, w.disk, w.state.adjudicationCompleted + 1;
    var request := RequestOf(d, p);
    World(st.(status := AdjudicationSubmitted, updatedAt := r.now, batchId := Some(r.answer.batch), inputId := Some(r.answer.input),
              batchIds := st.batchIds + [r.answer.batch], inputIds := st.inputIds + [r.answer.input]),
          d.(intents := d.intents[p := IntentRecord(request, r.intent)],
             completions := d.completions[p := Completion(request, r.answer, r.completed)],
             stateFile := r.submitted),
          w.log + [Submission(p, request, r.answer)], Idle)
  }

  function AfterObserve(w: World, r: Round): World {
    var st, d, p := w.state, w.disk, w.state.adjudicationCompleted + 1;
    World(st.(status := AdjudicationPartCompleted, updatedAt := r.now, adjudicationCompleted := p),
          d.(outputs := d.outputs[p := r.output],
             errors := if r.error.Some? then d.errors[p := r.error.value] else d.errors,
             stateFile := r.observed),
          w.log, Idle)
  }

  lemma StartCalls(w: World, raw: Bytes)
    requires Inv(w) && Inherited(w) && w.job == Idle && !DeadEnd(w) && Resting(w.state)
    requires |w.disk.intents| == |w.state.batchIds| && 0 < |raw| <= RECORD_MAX
    ensures var (d, p) := (w.disk, w.state.adjudicationCompleted + 1);
      && p in d.requests && p !in d.completions
      && Start(w, raw) == w.(disk := d.(intents := d.intents[p := IntentRecord(d.requests[p], raw)]), job := Calling(p, d.requests[p]))
  {
    hide Inv, SubmissionAdmits, Inherited, DeadEnd, Unreconciled, Resting, Bounded;
    SubmissionGoesOn(w);
    NoRecords(w);
  }

  lemma NoRecords(w: World)
    requires Inv(w) && Resting(w.state) && |w.disk.intents| == |w.state.batchIds|
    ensures var (d, p) := (w.disk, w.state.adjudicationCompleted + 1); p !in d.intents && p !in d.completions
  {
    hide JobInv, OutputInv, RequestInv, FreshInv, LogInv, IdsInv, CompletionInv, IntentInv;
  }

  /** A part with no record is submitted by four events, and this is all they
      change: the intent, the provider's log, the completed record, the state. */
  lemma SubmittingAPart(w: World, r: Round)
    requires Inv(w) && Inherited(w) && w.job == Idle && !DeadEnd(w) && Resting(w.state)
    requires |w.disk.intents| == |w.state.batchIds| && NewIds(w.log, r.answer) && Writable(r)
    ensures w.state.adjudicationCompleted + 1 in w.disk.requests
    ensures Run(w, SubmitEvents(r)) == AfterSubmit(w, r)
  {
    hide Inv, Inherited, DeadEnd, Start, Poll, Run, AnswerOk;
    RunFour(w, StartSubmit(r.intent), ProviderAccepts(r.answer), RecordCompletion(r.completed), SaveSubmitted(r.now, r.submitted));
    StartCalls(w, r.intent);
  }

  /** A submitted part with nothing stored is observed by four events: its
      output and, if there is one, its error file are stored as received. */
  lemma ObservingAPart(w: World, r: Round)
    requires Inv(w) && Inherited(w) && w.job == Idle && !DeadEnd(w) && w.state.status == AdjudicationSubmitted
    requires Writable(r)
    ensures Run(w, ObserveEvents(r)) == AfterObserve(w, r)
  {
    hide Inv, Inherited, DeadEnd, Poll, Start, Run, AnswerOk;
    RunFour(w, PollCompleted(r.output, r.error), WriteOutput, WriteError, SaveObserved(r.now, r.observed));
    PollStarts(w, StoringOutput(r.output, r.error));
  }

  /** A part the provider failed ends the run with its evidence. */
  lemma FailingAPart(w: World, evidence: Bytes, now: string, saved: Bytes)
    requires Inv(w) && Inherited(w) && w.job == Idle && !DeadEnd(w) && w.state.status == AdjudicationSubmitted
    requires |evidence| <= FILE_MAX && 0 < |saved| <= FILE_MAX
    ensures Run(w, [PollFailed(evidence), WriteTerminal, SaveFailed(now, saved)])
      == World(w.state.(status := Failed, updatedAt := now),
               w.disk.(terminal := Some(evidence), stateFile := saved), w.log, Idle)
  {
    hide Inv, Inherited, DeadEnd, Poll, Start, Run;
    RunThree(w, PollFailed(evidence), WriteTerminal, SaveFailed(now, saved));
    PollStarts(w, StoringTerminal(evidence));
  }

  // --------------------------------------------------- how dead ends are met

  /** A crash after the intent, before the completed record: whether or not
      the provider took the batch, the run waits for ever. */
  lemma CrashAfterIntentIsFinal(w: World, raw: Bytes)
    requires Inv(w) && Inherited(w) && w.job == Idle && !DeadEnd(w) && Resting(w.state)
    requires |w.disk.intents| == |w.state.batchIds| && 0 < |raw| <= RECORD_MAX
    ensures var w' := Run(w, [StartSubmit(raw), Crash]); Unreconciled(w') && DeadEnd(w')
  {
    hide Inv, Inherited, DeadEnd, Start, Poll, Run, Resting, Unreconciled;
    RunTwo(w, StartSubmit(raw), Crash);
    StartCalls(w, raw);
    CrashedIntent(w, raw);
  }

  lemma CrashedIntent(w: World, raw: Bytes)
    requires Inv(w) && Resting(w.state) && |w.disk.intents| == |w.state.batchIds|
    ensures var (d, p) := (w.disk, w.state.adjudicationCompleted + 1);
      p in d.requests ==>
        var w' := w.(disk := d.(intents := d.intents[p := IntentRecord(d.requests[p], raw)]), job := Idle);
        Unreconciled(w') && DeadEnd(w')
  {
    NoRecords(w);
    hide JobInv, OutputInv, RequestInv, Blocked, FreshInv, LogInv, IdsInv, CompletionInv, IntentInv;
    var d, p := w.disk, w.state.adjudicationCompleted + 1;
    if p in d.requests { assert |d.intents[p := IntentRecord(d.requests[p], raw)]| == |d.intents| + 1; }
  }

  /** A crash after the output was stored, before the state was saved: no
      observer comes back to the run. */
  lemma CrashAfterOutputIsFinal(w: World, output: Bytes, error: Option<Bytes>)
    requires Inv(w) && Inherited(w) && w.job == Idle && !DeadEnd(w) && w.state.status == AdjudicationSubmitted
    requires |output| <= FILE_MAX
    ensures var w' := Run(w, [PollCompleted(output, error), WriteOutput, Crash]); StoredUnsaved(w') && DeadEnd(w')
  {
    hide Inv, Inherited, DeadEnd, Start, Poll, Run;
    RunThree(w, PollCompleted(output, error), WriteOutput, Crash);
    PollStarts(w, StoringOutput(output, error));
    var p := w.state.adjudicationCompleted + 1;
    assert |w.disk.outputs[p := output]| == |w.disk.outputs| + 1;
    StoredIsDead(Run(w, [PollCompleted(output, error), WriteOutput, Crash]));
  }

  /** The same after failure evidence was stored. */
  lemma CrashAfterEvidenceIsFinal(w: World, evidence: Bytes)
    requires Inv(w) && Inherited(w) && w.job == Idle && !DeadEnd(w) && w.state.status == AdjudicationSubmitted
    requires |evidence| <= FILE_MAX
    ensures var w' := Run(w, [PollFailed(evidence), WriteTerminal, Crash]); StoredUnsaved(w') && DeadEnd(w')
  {
    hide Inv, Inherited, DeadEnd, Start, Poll, Run;
    RunThree(w, PollFailed(evidence), WriteTerminal, Crash);
    PollStarts(w, StoringTerminal(evidence));
    StoredIsDead(Run(w, [PollFailed(evidence), WriteTerminal, Crash]));
  }

  lemma StoredIsDead(w: World)
    requires StoredUnsaved(w) && w.job == Idle
    ensures DeadEnd(w)
  {
    hide Blocked;
  }

  /** An empty output is stored without complaint, and the run cannot go on:
      no worker reads an empty file. */
  lemma EmptyOutputIsFinal(w: World, r: Round)
    requires Inv(w) && Inherited(w) && w.job == Idle && !DeadEnd(w) && w.state.status == AdjudicationSubmitted
    requires Writable(r) && r.output == []
    ensures var w' := Run(w, ObserveEvents(r));
      w'.state.status == AdjudicationPartCompleted && DeadEnd(w') && !DiskReadable(w'.disk)
  {
    hide Inv, Inherited, DeadEnd, Run, Writable, ObserveEvents, DiskReadable;
    ObservingAPart(w, r);
    var w' := AfterObserve(w, r);
    EmptyOutputIsUnreadable(w'.disk, w.state.adjudicationCompleted + 1);
    UnreadableIsDead(w');
  }

  /** An output the workflow cannot read back, empty or over 32 MiB, ends the
      run too: the look back stops at it. */
  lemma UnboundedOutputIsFinal(w: World, r: Round)
    requires Inv(w) && Inherited(w) && w.job == Idle && !DeadEnd(w) && w.state.status == AdjudicationSubmitted
    requires Writable(r) && !Bounded(r.output)
    ensures var w' := Run(w, ObserveEvents(r));
      w'.state.status == AdjudicationPartCompleted && DeadEnd(w')
  {
    hide Inv, Inherited, DeadEnd, Run, Writable, ObserveEvents, PartsUsable, Bounded;
    ObservingAPart(w, r);
    var w' := AfterObserve(w, r);
    UnboundedIsNotUsable(w'.disk, |w'.state.batchIds|, w'.state.adjudicationCompleted);
    UnusableIsDead(w');
  }

  lemma UnboundedIsNotUsable(d: Disk, n: nat, k: nat)
    requires k >= 1 && k in d.outputs && !Bounded(d.outputs[k])
    ensures !PartsUsable(d, n, k)
  {
    hide KnownStatus, Bounded;
  }

  lemma UnreadableIsDead(w: World)
    requires !DiskReadable(w.disk) && w.job == Idle
    ensures DeadEnd(w)
  {
    hide DiskReadable, PartsUsable, Bounded, Unreconciled, StoredUnsaved, Finished;
  }

  lemma EmptyOutputIsUnreadable(d: Disk, p: nat)
    requires p in d.outputs && d.outputs[p] == []
    ensures !DiskReadable(d)
  {
    hide Filed, PartName, IntentBytes, CompletionBytes;
    var name := PartName(Adjudication, p, Output);
    FiledAt(Output, d.outputs, p);
    LaterNamesDiffer(d, p);
    assert name in DiskFiles(d) && DiskFiles(d)[name] == [];
  }

  /** No file merged in after the outputs goes by an output's name. */
  lemma LaterNamesDiffer(d: Disk, p: nat)
    ensures PartName(Adjudication, p, Output) !in Filed(ApiErrors, d.errors)
    ensures PartName(Adjudication, p, Output) !in TerminalFile(d.terminal)
    ensures PartName(Adjudication, p, Output) != RUN_STATE
  {
    hide Filed, PartName;
    var name := PartName(Adjudication, p, Output);
    if name in Filed(ApiErrors, d.errors) {
      var q := PartOf(ApiErrors, d.errors, name);
      PartNamesInjective(Adjudication, p, Output, Adjudication, q, ApiErrors);
    }
    PartIsNotFixed(Adjudication, p, Output);
    TerminalIsNoSource();
  }

  /** A batch state the look back does not know, such as "in_progress", is
      recorded without complaint.  The run then ends before part two is
      submitted or, if it is a later part, observed. */
  lemma UnknownStatusIsFinal(w: World, r: Round)
    requires Inv(w) && Inherited(w) && w.job == Idle && !DeadEnd(w) && Resting(w.state)
    requires |w.disk.intents| == |w.state.batchIds| && NewIds(w.log, r.answer) && Writable(r)
    requires !KnownStatus(r.answer.status)
    ensures DeadEnd(Run(w, SubmitEvents(r) + ObserveEvents(r)))
  {
    hide Inherited, Start, Poll, Run, KnownStatus, AnswerOk, Writable, SubmitEvents, ObserveEvents, Inv, DeadEnd,
         AfterSubmit, AfterObserve, StateInv, Resting;
    RunAppend(w, SubmitEvents(r), ObserveEvents(r));
    RunKeepsInv(w, SubmitEvents(r));
    RunKeepsInherited(w, SubmitEvents(r));
    SubmittingAPart(w, r);
    var w1 := AfterSubmit(w, r);
    if DeadEnd(w1) {
      DeadEndsAreFinal(w1, ObserveEvents(r));
    } else {
      RestingCounts(w);
      SubmittedUnknown(w, r);
      ObservingAPart(w1, r);
      ObservedUnknown(w1, r);
    }
  }

  lemma SubmittedUnknown(w: World, r: Round)
    requires |w.state.batchIds| == w.state.adjudicationCompleted
    requires !KnownStatus(r.answer.status)
    ensures var w' := AfterSubmit(w, r); var p := w.state.adjudicationCompleted + 1;
      && w'.state.status == AdjudicationSubmitted && w'.job == Idle && w'.state.adjudicationCompleted + 1 == p
      && (!DeadEnd(w') ==> w.state.adjudicationCompleted == 0)
      && p in w'.disk.completions && !KnownStatus(w'.disk.completions[p].answer.status)
      && |w'.state.batchIds| == p
  {
    hide KnownStatus, DeadEnd, PartsUsable;
    var (w', p) := (AfterSubmit(w, r), w.state.adjudicationCompleted + 1);
    if p > 1 {
      UnknownIsNotUsable(w'.disk, p, p - 1, p);
      UnusableIsDead(w');
    }
  }

  lemma UnusableIsDead(w: World)
    requires w.job == Idle && w.state.adjudicationCompleted > 0
    requires !PartsUsable(w.disk, |w.state.batchIds|, w.state.adjudicationCompleted)
    ensures DeadEnd(w)
  {
    hide DiskReadable, PartsUsable, Bounded, Unreconciled, StoredUnsaved, Finished;
  }

  lemma UnknownIsNotUsable(d: Disk, n: nat, k: nat, p: nat)
    requires 1 <= p <= n && p in d.completions && !KnownStatus(d.completions[p].answer.status)
    ensures !PartsUsable(d, n, k)
  {
    hide KnownStatus, Bounded;
  }

  lemma ObservedUnknown(w: World, r: Round)
    requires var p := w.state.adjudicationCompleted + 1;
      && p in w.disk.completions && !KnownStatus(w.disk.completions[p].answer.status) && |w.state.batchIds| == p
    ensures DeadEnd(AfterObserve(w, r))
  {
    hide KnownStatus, DeadEnd, PartsUsable;
    var (w', p) := (AfterObserve(w, r), w.state.adjudicationCompleted + 1);
    UnknownIsNotUsable(w'.disk, p, p, p);
    UnusableIsDead(w');
  }

  lemma {:induction false} RunAppend(w: World, a: seq<Event>, b: seq<Event>)
    ensures Run(w, a + b) == Run(Run(w, a), b)
    decreases |a|
  {
    hide Next;
    if a == [] {
      assert a + b == b;
    } else {
      assert (a + b)[1..] == a[1..] + b;
      RunAppend(Next(w, a[0]), a[1..], b);
    }
  }

  lemma {:induction false} RunKeepsInherited(w: World, events: seq<Event>)
    requires Inherited(w)
    ensures Inherited(Run(w, events))
    decreases |events|
  {
    hide Next, Inherited;
    if events != [] {
      NextKeepsFrame(w, events[0]);
      FrameKeepsInherited(w, Next(w, events[0]));
      RunKeepsInherited(Next(w, events[0]), events[1..]);
    }
  }

  lemma FrameKeepsInherited(w: World, w': World)
    requires Inherited(w) && SameFrame(w, w')
    ensures Inherited(w')
  {
    assert PrimaryFiles(w'.state) == PrimaryFiles(w.state) && PrimaryErrors(w'.state) == PrimaryErrors(w.state);
    hide Within, PrimaryFiles, PrimaryErrors;
  }
}
