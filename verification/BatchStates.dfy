/** The three states a recorded batch may have, spelled out: with any of them
    the run goes on to its end, with any other it stops. */
module BatchStates {
  import opened Names
  import opened RunState
  import opened Files
  import opened HandOff
  import opened RunDisk
  import opened RunMachine
  import opened RunSafety
  import opened RunInvariant
  import opened RunProgress
  import opened RunFinish
  import Subtitles

  lemma KnownStatesAreThree(s: string)
    ensures KnownStatus(s) <==> s == "validating" || s == "completed" || s == "failed"
    ensures s == "validating" || s == "completed" || s == "failed" ==> Subtitles.Trimmed(s)
  {
  }

  /** What one part brings, sizes in bytes: a batch in one of the three states,
      an output of up to 32 MiB, an error file of up to 64 MiB, records of up to
      4 KiB and state texts of up to 64 KiB. */
  predicate Ordinary(r: Round) {
    && r.answer.status in {"validating", "completed", "failed"}
    && Subtitles.Trimmed(r.answer.batch) && Subtitles.Trimmed(r.answer.input)
    && 0 < |r.output| <= 33_554_432
    && (r.error.Some? ==> 0 < |r.error.value| <= 67_108_864)
    && 0 < |r.intent| <= 4_096 && 0 < |r.completed| <= 4_096
    && 0 < |r.submitted| <= 65_536 && 0 < |r.observed| <= 65_536
  }

  lemma OrdinaryIsGood(r: Round)
    ensures Ordinary(r) <==> Good(r)
  {
    KnownStatesAreThree(r.answer.status);
    hide Subtitles.Trimmed, KnownStatus;
  }

  /** The run so far, and the next round: the submission worker takes the one,
      the observer what the submission left. */
  ghost predicate GoesThrough(w: World, r: Round) {
    SubmissionAdmits(w) && ObserverAdmits(Run(w, SubmitEvents(r)))
  }

  lemma OneGoesThrough(w: World, r: Round)
    requires Inv(w) && Inherited(w) && Healthy(w) && w.state.adjudicationCompleted < w.state.adjudicationParts
    requires NewIds(w.log, r.answer) && Good(r)
    requires Load(w.disk) + |w.disk.stateFile| <= TOTAL_MAX && FitsOne(Load(w.disk), r)
    ensures GoesThrough(w, r)
  {
    hide Inv, Inherited, DeadEnd, Run, Good, Writable, Load, SubmitEvents, Healthy, AllSized, NewIds, Resting, AfterSubmit,
         Unrecorded, PartsUsable, Blocked, DiskReadable, FitsOne, SubmissionAdmits, ObserverAdmits;
    HealthyIsSettled(w);
    HealthyCounts(w);
    HealthyGoesOn(w);
    RoundIsWritable(r);
    SubmissionGoesOn(w);
    RunKeepsInv(w, SubmitEvents(r));
    RunKeepsInherited(w, SubmitEvents(r));
    SubmittingAPart(w, r);
    SubmittedGoesOn(w, r);
    AfterSubmitIsIdle(w, r);
    SubmittedIsPolled(AfterSubmit(w, r));
  }

  lemma SubmittedIsPolled(w: World)
    requires Inv(w) && Inherited(w) && w.job == Idle && !DeadEnd(w) && w.state.status == AdjudicationSubmitted
    ensures ObserverAdmits(w)
  {
    hide Inv, Inherited, DeadEnd, ObserverAdmits;
    PollStarts(w, SavingObserved);
  }

  lemma {:induction false} EachGoesThrough(w: World, rounds: seq<Round>, n: nat)
    requires Inv(w) && Inherited(w) && Healthy(w) && n < |rounds|
    requires |rounds| <= w.state.adjudicationParts - w.state.adjudicationCompleted
    requires Supply(rounds, w.log) && forall i :: 0 <= i < |rounds| ==> Good(rounds[i])
    requires Load(w.disk) + |w.disk.stateFile| <= TOTAL_MAX && Fits(Load(w.disk), rounds)
    ensures GoesThrough(Run(w, AllEvents(rounds[..n])), rounds[n])
    decreases n
  {
    hide Inv, Inherited, Healthy, Run, Good, Supply, Load, RoundEvents, Weight, FitsOne, GoesThrough, AfterRound;
    var (r, rest) := (rounds[0], rounds[1..]);
    SupplyFirst(rounds, w.log);
    if n == 0 {
      RunNothing(w);
      OneGoesThrough(w, r);
    } else {
      OneMorePart(w, r);
      var w1 := AfterRound(w, r);
      SubmissionLogged(w, r);
      SupplyShrinks(rounds, w.log, w1.log[|w.log|]);
      FirstEvents(rounds, n);
      RunAppend(w, RoundEvents(r), AllEvents(rest[..n - 1]));
      EachGoesThrough(w1, rest, n - 1);
    }
  }

  lemma FirstEvents(rounds: seq<Round>, n: nat)
    requires 0 < n <= |rounds|
    ensures AllEvents(rounds[..n]) == RoundEvents(rounds[0]) + AllEvents(rounds[1..][..n - 1])
  {
    hide RoundEvents;
    assert rounds[..n][1..] == rounds[1..][..n - 1];
  }

  /** A prepared run whose batches are recorded as "validating", "completed" or
      "failed", in any mixture: every part is admitted to its submission and to
      its observation, and the run ends finished with every output stored. */
  lemma RecordedStatesGoOn(st: State, base: Contents, saved: Bytes, content: nat -> Bytes, rounds: seq<Round>)
    requires RunFinish.Prepared(st) && PreparedDirectory(st, base, saved, content)
    requires |rounds| == st.adjudicationParts && Supply(rounds, []) && forall i :: 0 <= i < |rounds| ==> Ordinary(rounds[i])
    requires var load := Load(StartOf(st, base, saved, content).disk); load + |saved| <= 268_435_456 && Fits(load, rounds)
    ensures var start := StartOf(st, base, saved, content);
      && (forall n :: 0 <= n < |rounds| ==> GoesThrough(Run(start, AllEvents(rounds[..n])), rounds[n]))
      && Finished(Run(start, AllEvents(rounds))) && DiskReadable(Run(start, AllEvents(rounds)).disk)
      && AllHold(Run(start, AllEvents(rounds)), start, rounds)
  {
    hide Run, Init, Inherited, Supply, Healthy, AllEvents, Ordinary, Good, PreparedDirectory, Load, Fits, Finished, AllHold,
         GoesThrough, DiskReadable, PartsUsable;
    var start := StartOf(st, base, saved, content);
    forall i | 0 <= i < |rounds| { OrdinaryIsGood(rounds[i]); }
    StartIsInit(st, base, saved, content);
    InitInv(start);
    NothingAtInit(start);
    RunCanFinish(start, rounds);
    forall n | 0 <= n < |rounds|
      ensures GoesThrough(Run(start, AllEvents(rounds[..n])), rounds[n])
    {
      EachGoesThrough(start, rounds, n);
    }
  }

  /** Any other state, such as "in_progress", is recorded too, and the run ends
      no later than the part's observation. */
  lemma OtherStatesAreFinal(w: World, r: Round)
    requires Inv(w) && Inherited(w) && w.job == Idle && !DeadEnd(w) && Resting(w.state)
    requires |w.disk.intents| == |w.state.batchIds| && NewIds(w.log, r.answer) && Writable(r)
    requires r.answer.status != "validating" && r.answer.status != "completed" && r.answer.status != "failed"
    ensures DeadEnd(Run(w, SubmitEvents(r) + ObserveEvents(r)))
  {
    hide Inv, Inherited, DeadEnd, Writable, NewIds, Run;
    KnownStatesAreThree(r.answer.status);
    UnknownStatusIsFinal(w, r);
  }

  lemma InProgressIsFinal(w: World, r: Round)
    requires Inv(w) && Inherited(w) && w.job == Idle && !DeadEnd(w) && Resting(w.state)
    requires |w.disk.intents| == |w.state.batchIds| && NewIds(w.log, r.answer) && Writable(r)
    requires r.answer.status == "in_progress"
    ensures DeadEnd(Run(w, SubmitEvents(r) + ObserveEvents(r)))
  {
    hide Inv, Inherited, DeadEnd, Writable, NewIds, Run;
    assert |"in_progress"| == 11 && |"validating"| == 10 && |"completed"| == 9 && |"failed"| == 6;
    OtherStatesAreFinal(w, r);
  }

  /** Every prepared state has such a directory: all the files it should have,
      a byte each. */
  lemma PreparedDirectoryExists(st: State)
    requires RunFinish.Prepared(st)
    ensures PreparedDirectory(st, SmallBase(st), [0], p => [0])
  {
    hide PrimaryFiles, PrimaryErrors, PrimaryDerived;
    assert SmallBase(st).Keys + {RUN_STATE} == PrimaryFiles(st) + PrimaryDerived() by { StateIsAFile(st); }
  }

  function SmallBase(st: State): Contents {
    map n | n in PrimaryFiles(st) + PrimaryDerived() && n != "run-state.json" :: [0]
  }

  lemma StateIsAFile(st: State)
    ensures RUN_STATE in PrimaryFiles(st)
  {
  }
}
