/** The invariant of the adjudication machine holds in every reachable world. */
module RunInvariant {
  import opened Names
  import opened RunState
  import opened RunDisk
  import opened RunMachine
  import opened RunSafety

  lemma SubmissionNeedsAPart(w: World)
    requires SubmissionAdmits(w)
    ensures Resting(w.state) && w.state.adjudicationCompleted < w.state.adjudicationParts
  {
  }

  lemma DenseGrows<V>(m: map<nat, V>, v: V)
    requires Dense(m)
    ensures |m| + 1 !in m
    ensures var m' := m[|m| + 1 := v]; Dense(m') && |m'| == |m| + 1
  {
    assert |m[|m| + 1 := v]| == |m| + 1;
  }

  lemma DenseNext<V>(m: map<nat, V>, n: nat)
    requires Dense(m) && n <= |m| <= n + 1
    ensures n + 1 in m <==> |m| == n + 1
  {
  }

  lemma IntentGrows(intents: map<nat, IntentRecord>, requests: map<nat, Bytes>, p: nat, raw: Bytes)
    requires IntentInv(intents, requests) && p in requests && Bounded(requests[p])
    ensures IntentInv(intents[p := IntentRecord(requests[p], raw)], requests)
  {
  }

  lemma SubmitKeeps(w: World, raw: Bytes)
    requires Live(w) && Dense(w.disk.requests) && |w.disk.requests| == w.state.adjudicationParts
    requires Resting(w.state) && w.state.adjudicationCompleted < w.state.adjudicationParts
    ensures Live(Submit(w, raw))
  {
    hide Dense, IntentInv, FreshInv, LogInv, CompletionInv, IdsInv, Bounded, RequestInv;
    var d, p := w.disk, w.state.adjudicationCompleted + 1;
    DenseNext(d.intents, p - 1);
    DenseNext(d.completions, p - 1);
    if p in d.requests && Bounded(d.requests[p]) {
      IntentGrows(d.intents, d.requests, p, raw);
      DenseGrows(d.intents, IntentRecord(d.requests[p], raw));
    }
    RecordedIsLogged(w);
  }

  lemma RecordedIsLogged(w: World)
    requires JournalInv(w.state, w.disk, w.log)
    ensures var (d, n) := (w.disk, |w.state.batchIds|);
      n + 1 in d.completions ==> |d.completions| == |w.log| == n + 1 && d.completions[n + 1].answer == w.log[n].answer
  {
    hide FreshInv, LogInv, IdsInv, IntentInv;
  }

  lemma LogGrows(log: seq<Submission>, s: Submission, requests: map<nat, Bytes>, completions: map<nat, Completion>,
                 b: seq<string>, i: seq<string>)
    requires LogInv(log, requests) && FreshInv(log) && CompletionInv(completions, log) && IdsInv(b, i, log)
    requires s.part == |log| + 1 && s.part in requests && s.request == requests[s.part] && s.part !in completions
    requires NewIds(log, s.answer)
    ensures LogInv(log + [s], requests) && FreshInv(log + [s]) && CompletionInv(completions, log + [s]) && IdsInv(b, i, log + [s])
  {
    forall i | 0 <= i < |log|
      ensures s.answer.batch != log[i].answer.batch && s.answer.input != log[i].answer.input
    {
      assert log[i] in log;
    }
  }

  lemma CallKeeps(w: World, s: Submission, job: Job)
    requires Live(w) && w.job.Calling?
    requires s.part == w.job.part && s.request == w.job.request && NewIds(w.log, s.answer)
    requires job == Idle || (job == Recording(s) && AnswerOk(s.answer))
    ensures Live(w.(log := w.log + [s], job := job))
  {
    LogGrows(w.log, s, w.disk.requests, w.disk.completions, w.state.batchIds, w.state.inputIds);
  }

  lemma RecordKeeps(w: World, raw: Bytes)
    requires Live(w)
    ensures Live(Record(w, raw))
  {
    hide Dense, IntentInv, FreshInv, CompletionInv, IdsInv, AnswerOk;
    if w.job.Recording? {
      var s := w.job.accepted;
      assert s.part == |w.disk.completions| + 1;
      hide LogInv;
      DenseGrows(w.disk.completions, Completion(s.request, s.answer, raw));
      RecordsMatch(w.disk.completions, w.log, raw);
    }
  }

  lemma RecordsMatch(completions: map<nat, Completion>, log: seq<Submission>, raw: Bytes)
    requires CompletionInv(completions, log) && log != []
    requires AnswerOk(log[|log| - 1].answer)
    ensures var s := log[|log| - 1];
      CompletionInv(completions[|log| := Completion(s.request, s.answer, raw)], log)
  {
    hide AnswerOk;
  }

  lemma SaveSubmissionKeeps(w: World, now: string, raw: Bytes)
    requires Live(w)
    ensures Live(SaveSubmission(w, now, raw))
  {
    hide Dense, IntentInv, FreshInv, LogInv, CompletionInv;
    if w.job.SavingSubmitted? { IdsGrow(w.state.batchIds, w.state.inputIds, w.log); }
  }

  lemma IdsGrow(b: seq<string>, i: seq<string>, log: seq<Submission>)
    requires IdsInv(b, i, log) && |b| < |log|
    ensures IdsInv(b + [log[|b|].answer.batch], i + [log[|b|].answer.input], log)
  {
  }

  lemma PollKeeps(w: World, job: Job)
    requires Inv(w) && (job.StoringOutput? || job.StoringTerminal?)
    ensures Live(Poll(w, job))
  {
    if w.job.Idle? && ObserverAdmits(w) {
      AdmittedIsUnstored(w);
      hide ObserverAdmits, RequestInv, JournalInv;
    }
  }

  lemma StoreOutputKeeps(w: World)
    requires Live(w)
    ensures Live(StoreOutput(w))
  {
    hide IntentInv, FreshInv, LogInv, CompletionInv, IdsInv;
    if w.job.StoringOutput? { DenseGrows(w.disk.outputs, w.job.output); }
  }

  lemma StoreErrorKeeps(w: World)
    requires Live(w)
    ensures Live(StoreError(w))
  {
    hide IntentInv, FreshInv, LogInv, CompletionInv, IdsInv;
    var p := w.state.adjudicationCompleted + 1;
    if w.job.StoringError? && w.job.error.Some? {
      assert w.disk.errors[p := w.job.error.value].Keys == w.disk.errors.Keys + {p};
    }
  }

  lemma StoreTerminalKeeps(w: World)
    requires Live(w)
    ensures Live(StoreTerminal(w))
  {
    hide Dense, IntentInv, FreshInv, LogInv, CompletionInv, IdsInv;
  }

  lemma SaveObservationKeeps(w: World, now: string, raw: Bytes)
    requires Live(w)
    ensures Live(SaveObservation(w, now, raw))
  {
    hide Dense, IntentInv, FreshInv, LogInv, CompletionInv, IdsInv;
  }

  lemma SaveFailureKeeps(w: World, now: string, raw: Bytes)
    requires Live(w)
    ensures Live(SaveFailure(w, now, raw))
  {
    hide Dense, IntentInv, FreshInv, LogInv, CompletionInv, IdsInv;
  }

  predicate SameFrame(w: World, w': World) {
    && w'.disk.base == w.disk.base && w'.disk.requests == w.disk.requests
    && w'.state.primaryParts == w.state.primaryParts && w'.state.adjudicationParts == w.state.adjudicationParts
  }

  lemma AdvanceKeepsFrame(w: World, e: Event)
    ensures SameFrame(w, Advance(w, e))
  {
  }

  lemma FrameReflexive(w: World)
    ensures SameFrame(w, w)
  {
  }

  lemma LaunchKeepsFrame(w: World, raw: Bytes, job: Job)
    ensures SameFrame(w, Start(w, raw)) && SameFrame(w, Poll(w, job))
  {
    hide SubmissionAdmits, ObserverAdmits;
  }

  lemma NextKeepsFrame(w: World, e: Event)
    ensures SameFrame(w, Next(w, e))
  {
    hide SameFrame, Start, Poll, Advance;
    match e {
      case StartSubmit(raw) => LaunchKeepsFrame(w, raw, Idle);
      case PollCompleted(output, error) => LaunchKeepsFrame(w, [], StoringOutput(output, error));
      case PollFailed(evidence) => LaunchKeepsFrame(w, [], StoringTerminal(evidence));
      case PollWaiting => FrameReflexive(w);
      case _ => AdvanceKeepsFrame(w, e);
    }
  }

  lemma FrameKeepsRequests(w: World, w': World)
    requires Inv(w) && SameFrame(w, w') && Live(w')
    ensures Inv(w')
  {
    hide Live;
  }

  lemma StartKeeps(w: World, raw: Bytes)
    requires Inv(w)
    ensures Live(Start(w, raw))
  {
    if w.job.Idle? && SubmissionAdmits(w) {
      SubmissionNeedsAPart(w);
      SubmitKeeps(w, raw);
    }
  }

  lemma AcceptKeeps(w: World, a: Answer)
    requires Live(w)
    ensures Live(Accept(w, a))
  {
    if w.job.Calling? && NewIds(w.log, a) {
      var s := Submission(w.job.part, w.job.request, a);
      CallKeeps(w, s, if AnswerOk(a) then Recording(s) else Idle);
    }
  }

  lemma LoseKeeps(w: World, taken: Option<Answer>)
    requires Live(w)
    ensures Live(Lose(w, taken))
  {
    if w.job.Calling? && taken.Some? && NewIds(w.log, taken.value) {
      CallKeeps(w, Submission(w.job.part, w.job.request, taken.value), Idle);
    }
  }

  lemma CrashKeeps(w: World)
    requires Live(w)
    ensures Live(w.(job := Idle))
  {
    hide JournalInv, OutputInv, StateInv;
  }

  lemma AdvanceKeeps(w: World, e: Event)
    requires Live(w)
    ensures Live(Advance(w, e))
  {
    hide Live, Accept, Lose, Record, SaveSubmission, StoreOutput, StoreError, SaveObservation, StoreTerminal, SaveFailure;
    match e {
      case ProviderAccepts(answer) => AcceptKeeps(w, answer);
      case ProviderCallFails(taken) => LoseKeeps(w, taken);
      case RecordCompletion(raw) => RecordKeeps(w, raw);
      case SaveSubmitted(now, raw) => SaveSubmissionKeeps(w, now, raw);
      case WriteOutput => StoreOutputKeeps(w);
      case WriteError => StoreErrorKeeps(w);
      case SaveObserved(now, raw) => SaveObservationKeeps(w, now, raw);
      case WriteTerminal => StoreTerminalKeeps(w);
      case SaveFailed(now, raw) => SaveFailureKeeps(w, now, raw);
      case Crash => CrashKeeps(w);
      case _ =>
    }
  }

  /** Every event keeps the invariant. */
  lemma NextKeepsInv(w: World, e: Event)
    requires Inv(w)
    ensures Inv(Next(w, e))
  {
    hide Live, RequestInv, SameFrame, Start, Poll, Advance;
    match e {
      case StartSubmit(raw) => StartKeeps(w, raw);
      case PollCompleted(output, error) => PollKeeps(w, StoringOutput(output, error));
      case PollFailed(evidence) => PollKeeps(w, StoringTerminal(evidence));
      case PollWaiting =>
      case _ => AdvanceKeeps(w, e);
    }
    NextKeepsFrame(w, e);
    FrameKeepsRequests(w, Next(w, e));
  }

  /** So does every run. */
  lemma {:induction false} RunKeepsInv(w: World, events: seq<Event>)
    requires Inv(w)
    ensures Inv(Run(w, events))
    decreases |events|
  {
    if events != [] {
      NextKeepsInv(w, events[0]);
      RunKeepsInv(Next(w, events[0]), events[1..]);
    }
  }
}
