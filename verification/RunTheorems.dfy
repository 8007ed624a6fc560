/** What holds over whole runs of the adjudication stage. */
module RunTheorems {
  import opened Names
  import opened RunState
  import opened Files
  import opened Observers
  import opened Costs
  import Contracts
  import opened RunDisk
  import opened RunMachine
  import opened RunSafety
  import opened RunInvariant

  // ------------------------------------------------- evidence is never lost

  predicate Kept<K, V(==)>(a: map<K, V>, b: map<K, V>) {
    forall k :: k in a ==> k in b && b[k] == a[k]
  }

  predicate StateExtends(a: State, b: State) {
    && a.adjudicationCompleted <= b.adjudicationCompleted
    && a.batchIds <= b.batchIds && a.inputIds <= b.inputIds
    && b == a.(status := b.status, updatedAt := b.updatedAt, adjudicationCompleted := b.adjudicationCompleted,
               batchId := b.batchId, inputId := b.inputId, batchIds := b.batchIds, inputIds := b.inputIds)
  }

  predicate DiskExtends(a: Disk, b: Disk) {
    && b.base == a.base && b.requests == a.requests
    && Kept(a.intents, b.intents) && Kept(a.completions, b.completions)
    && Kept(a.outputs, b.outputs) && Kept(a.errors, b.errors)
    && (a.terminal.Some? ==> b.terminal == a.terminal)
  }

  predicate Extends(a: World, b: World) {
    StateExtends(a.state, b.state) && DiskExtends(a.disk, b.disk) && a.log <= b.log
  }

  lemma AdvanceExtends(w: World, e: Event)
    ensures Extends(w, Advance(w, e))
  {
    hide Accept, Lose, Record, SaveSubmission, StoreOutput, StoreError, SaveObservation, StoreTerminal, SaveFailure, Extends;
    CallsExtend(w, e);
    SavesExtend(w, e);
    StoresExtend(w, e);
    ExtendsIdle(w);
  }

  lemma ExtendsIdle(w: World)
    ensures Extends(w, w) && Extends(w, w.(job := Idle))
  {
  }

  lemma CallsExtend(w: World, e: Event)
    ensures e.ProviderAccepts? ==> Extends(w, Accept(w, e.answer))
    ensures e.ProviderCallFails? ==> Extends(w, Lose(w, e.taken))
    ensures e.RecordCompletion? ==> Extends(w, Record(w, e.raw))
  {
    hide AnswerOk, NewIds;
  }

  lemma SavesExtend(w: World, e: Event)
    ensures e.SaveSubmitted? ==> Extends(w, SaveSubmission(w, e.now, e.raw))
    ensures e.SaveObserved? ==> Extends(w, SaveObservation(w, e.now, e.raw))
    ensures e.SaveFailed? ==> Extends(w, SaveFailure(w, e.now, e.raw))
  {
    hide Extends, Save;
    ExtendsIdle(w);
    if e.SaveSubmitted? && w.job.SavingSubmitted? { SaveExtends(w, Submitted(w.state, w.job.batch, w.job.input, e.now), e.raw); }
    if e.SaveObserved? { SaveExtends(w, Observed(w.state, e.now), e.raw); }
    if e.SaveFailed? { SaveExtends(w, w.state.(status := Failed, updatedAt := e.now), e.raw); }
  }

  lemma SaveExtends(w: World, st: State, raw: Bytes)
    requires StateExtends(w.state, st)
    ensures Extends(w, Save(w, st, raw))
  {
    hide StateExtends, Kept;
    KeepsItself(w.disk.intents);
    KeepsItself(w.disk.completions);
    KeepsItself(w.disk.outputs);
    KeepsItself(w.disk.errors);
    ExtendsItself(w.state);
  }

  lemma KeepsItself<K, V>(m: map<K, V>)
    ensures Kept(m, m)
  {
  }

  lemma ExtendsItself(st: State)
    ensures StateExtends(st, st)
  {
  }

  lemma KeepsOneMore<K, V>(m: map<K, V>, k: K, v: V)
    requires k !in m || m[k] == v
    ensures Kept(m, m[k := v])
  {
  }

  lemma StoresExtend(w: World, e: Event)
    ensures e.WriteOutput? ==> Extends(w, StoreOutput(w))
    ensures e.WriteError? ==> Extends(w, StoreError(w))
    ensures e.WriteTerminal? ==> Extends(w, StoreTerminal(w))
  {
    hide StateExtends, Kept;
    var (d, p) := (w.disk, w.state.adjudicationCompleted + 1);
    KeepsItself(d.intents);
    KeepsItself(d.completions);
    KeepsItself(d.outputs);
    KeepsItself(d.errors);
    ExtendsItself(w.state);
    if w.job.StoringOutput? && (p !in d.outputs || d.outputs[p] == w.job.output) { KeepsOneMore<nat, Bytes>(d.outputs, p, w.job.output); }
    if w.job.StoringError? && w.job.error.Some? && (p !in d.errors || d.errors[p] == w.job.error.value) {
      KeepsOneMore<nat, Bytes>(d.errors, p, w.job.error.value);
    }
  }

  lemma LaunchExtends(w: World, raw: Bytes, job: Job)
    ensures Extends(w, Start(w, raw)) && Extends(w, Poll(w, job))
  {
    hide SubmissionAdmits, ObserverAdmits;
  }

  lemma NextExtends(w: World, e: Event)
    ensures Extends(w, Next(w, e))
  {
    hide Extends, Start, Poll, Advance;
    match e {
      case StartSubmit(raw) => LaunchExtends(w, raw, Idle);
      case PollCompleted(output, error) => LaunchExtends(w, [], StoringOutput(output, error));
      case PollFailed(evidence) => LaunchExtends(w, [], StoringTerminal(evidence));
      case PollWaiting => ExtendsIdle(w);
      case _ => AdvanceExtends(w, e);
    }
  }

  lemma ExtendsTransitive(a: World, b: World, c: World)
    requires Extends(a, b) && Extends(b, c)
    ensures Extends(a, c)
  {
    assert a.state.batchIds <= c.state.batchIds by { PrefixTransitive(a.state.batchIds, b.state.batchIds, c.state.batchIds); }
    assert a.state.inputIds <= c.state.inputIds by { PrefixTransitive(a.state.inputIds, b.state.inputIds, c.state.inputIds); }
    assert a.log <= c.log by { PrefixTransitive(a.log, b.log, c.log); }
  }

  lemma PrefixTransitive<T>(a: seq<T>, b: seq<T>, c: seq<T>)
    requires a <= b && b <= c
    ensures a <= c
  {
  }

  /** Nothing written is ever changed or removed: journals, outputs, error
      files and recorded identifiers only grow, every other field stays. */
  lemma {:induction false} EvidenceIsFrozen(w: World, events: seq<Event>)
    ensures Extends(w, Run(w, events))
    decreases |events|
  {
    hide Extends, Next;
    if events == [] {
      ExtendsIdle(w);
    } else {
      NextExtends(w, events[0]);
      EvidenceIsFrozen(Next(w, events[0]), events[1..]);
      ExtendsTransitive(w, Next(w, events[0]), Run(w, events));
    }
  }

  // --------------------------------------------------------- reachable worlds

  /** No part is ever submitted twice, however often the worker crashes or the
      provider's answer is lost, and each part is submitted with the very bytes
      that were prepared. */
  lemma AtMostOneBatchPerPart(w: World, events: seq<Event>)
    requires Init(w)
    ensures var log := Run(w, events).log;
      && |log| <= w.state.adjudicationParts
      && (forall i :: 0 <= i < |log| ==>
            log[i].part == i + 1 && i + 1 in w.disk.requests && log[i].request == w.disk.requests[i + 1])
      && (forall i, j :: 0 <= i < j < |log| ==>
            log[i].part != log[j].part && log[i].answer.batch != log[j].answer.batch
            && log[i].answer.input != log[j].answer.input)
  {
    InitInv(w);
    RunKeepsInv(w, events);
    EvidenceIsFrozen(w, events);
    InvFixesLog(Run(w, events));
  }

  lemma InvFixesLog(w: World)
    requires Inv(w)
    ensures |w.log| <= w.state.adjudicationParts && LogInv(w.log, w.disk.requests) && FreshInv(w.log)
  {
    hide RequestInv, OutputInv, JobInv;
  }

  /** The saved state in every reachable world: part counts in range, one
      identifier per submitted part, all of them the provider's own answers, at
      most one batch not observed yet, and one output for every completed part. */
  lemma SavedStateIsConsistent(w: World, events: seq<Event>)
    requires Init(w)
    ensures var w' := Run(w, events); var st := w'.state; var k := st.adjudicationCompleted;
      && 0 <= k <= st.adjudicationParts == w.state.adjudicationParts
      && |st.batchIds| == |st.inputIds| == (if st.status in {AdjudicationSubmitted, Failed} then k + 1 else k)
      && |st.batchIds| <= |w'.log| <= k + 1
      && (forall i :: 0 <= i < |st.batchIds| ==> st.batchIds[i] == w'.log[i].answer.batch && st.inputIds[i] == w'.log[i].answer.input)
      && (forall p: nat :: 1 <= p <= k ==> p in w'.disk.outputs)
      && (forall p :: p in w'.disk.outputs ==> 1 <= p <= (if st.status == AdjudicationSubmitted then k + 1 else k))
  {
    InitInv(w);
    RunKeepsInv(w, events);
    EvidenceIsFrozen(w, events);
    InvFixesState(Run(w, events));
  }

  lemma InvFixesState(w: World)
    requires Inv(w)
    ensures var st := w.state; var k := st.adjudicationCompleted;
      && 0 <= k <= st.adjudicationParts
      && |st.batchIds| == |st.inputIds| == (if st.status in {AdjudicationSubmitted, Failed} then k + 1 else k)
      && |st.batchIds| <= |w.log| <= k + 1
      && (forall i :: 0 <= i < |st.batchIds| ==> st.batchIds[i] == w.log[i].answer.batch && st.inputIds[i] == w.log[i].answer.input)
      && (forall p: nat :: 1 <= p <= k ==> p in w.disk.outputs)
      && (forall p :: p in w.disk.outputs ==> 1 <= p <= (if st.status == AdjudicationSubmitted then k + 1 else k))
  {
    hide RequestInv, JobInv;
  }

  // ------------------------------------------------------------- termination

  /** How many saves are still to come. */
  function Measure(st: State): int {
    if st.status == Failed then 0
    else 2 * (st.adjudicationParts - st.adjudicationCompleted) - (if st.status == AdjudicationSubmitted then 1 else 0)
  }

  lemma AdvanceMeasure(w: World, e: Event)
    requires Live(w)
    ensures var w' := Advance(w, e); w'.state == w.state || Measure(w'.state) < Measure(w.state)
  {
    hide JournalInv, OutputInv;
  }

  lemma LaunchKeepsState(w: World, raw: Bytes, job: Job)
    ensures Start(w, raw).state == w.state && Poll(w, job).state == w.state
  {
    hide SubmissionAdmits, ObserverAdmits;
  }

  /** Every save brings the run strictly closer to its end. */
  lemma SavesMakeProgress(w: World, e: Event)
    requires Inv(w)
    ensures var w' := Next(w, e); w'.state == w.state || Measure(w'.state) < Measure(w.state)
  {
    hide Start, Poll, Advance, Live, RequestInv, Measure;
    match e {
      case StartSubmit(raw) => LaunchKeepsState(w, raw, Idle);
      case PollCompleted(output, error) => LaunchKeepsState(w, [], StoringOutput(output, error));
      case PollFailed(evidence) => LaunchKeepsState(w, [], StoringTerminal(evidence));
      case PollWaiting =>
      case _ => AdvanceMeasure(w, e);
    }
  }

  /** How often a run saved a changed state. */
  ghost function Saves(w: World, events: seq<Event>): nat
    decreases |events|
  {
    if events == [] then 0 else
    var w' := Next(w, events[0]);
    (if w'.state == w.state then 0 else 1) + Saves(w', events[1..])
  }

  lemma MeasureIsNat(w: World)
    requires Inv(w)
    ensures 0 <= Measure(w.state)
  {
    hide RequestInv, JournalInv, OutputInv, JobInv;
  }

  lemma {:induction false} SavesFromAnywhere(w: World, events: seq<Event>)
    requires Inv(w)
    ensures Saves(w, events) <= Measure(w.state)
    decreases |events|
  {
    hide Next, Inv, Measure;
    MeasureIsNat(w);
    if events != [] {
      NextKeepsInv(w, events[0]);
      SavesMakeProgress(w, events[0]);
      SavesFromAnywhere(Next(w, events[0]), events[1..]);
    }
  }

  /** A run saves at most twice per part. */
  lemma SavesAreBounded(w: World, events: seq<Event>)
    requires Init(w)
    ensures Saves(w, events) <= 2 * w.state.adjudicationParts
  {
    InitInv(w);
    SavesFromAnywhere(w, events);
  }

  /** Every state an observation saves is one its observer's own transition
      check accepts, the first observer's included. */
  lemma ObservationsPassTheirCheck(w: World, now: string, raw: Bytes)
    requires Inv(w)
    ensures w.job.SavingObserved? ==> NextTransition(w.state, SaveObservation(w, now, raw).state)
    ensures w.job.SavingFailed? ==> NextTransition(w.state, SaveFailure(w, now, raw).state)
    ensures w.job.SavingObserved? && w.state.adjudicationCompleted == 0 ==> FirstTransition(w.state, SaveObservation(w, now, raw).state)
    ensures w.job.SavingFailed? && w.state.adjudicationCompleted == 0 ==> FirstTransition(w.state, SaveFailure(w, now, raw).state)
  {
    hide RequestInv, JournalInv, OutputInv, StateInv;
  }

  /** The pinned observers step in without a change: a submitted run they are
      meant for meets their checkpoint, and what is saved passes their check. */
  lemma PinnedObserversFitTheRun(w: World, now: string, raw: Bytes)
    requires Inv(w) && w.state.status == AdjudicationSubmitted && w.state.adjudicationCompleted >= 1
    ensures PinnedCheckpoint(w.state, w.state.adjudicationCompleted)
    ensures w.state.adjudicationCompleted == 2 ==> ThirdCheckpoint(w.state)
    ensures w.state.adjudicationCompleted == 3 ==> FourthCheckpoint(w.state)
    ensures w.job.SavingObserved? ==> PinnedTransition(w.state, SaveObservation(w, now, raw).state, w.state.adjudicationCompleted)
    ensures w.job.SavingFailed? ==> PinnedTransition(w.state, SaveFailure(w, now, raw).state, w.state.adjudicationCompleted)
  {
    IdsDistinct(w);
    CheckpointHolds(w.state);
    ObservationsPassTheirCheck(w, now, raw);
    FourthIsNextRestricted(w.state);
    PinnedIsNextRestricted(w.state, SaveObservation(w, now, raw).state, w.state.adjudicationCompleted);
    PinnedIsNextRestricted(w.state, SaveFailure(w, now, raw).state, w.state.adjudicationCompleted);
    hide Inv, NextTransition, PinnedTransition, FourthCheckpoint, PinnedCheckpoint, NextCheckpoint;
  }

  function SubmissionReportFor(st: State, status: Contracts.Reply, estimate: int): Option<Contracts.SubmissionReport> {
    var cost := EstimateMicros(st.actualPrimaryCost);
    if cost.None? then None else
    Some(Contracts.SubmissionReport(st.status, status, cost.value, estimate, st.adjudicationCompleted, st.adjudicationParts,
                          if status == Contracts.Reconcile then 0 else 1))
  }

  /** Every submission from part two on ends in a report the wire contract
      accepts: a saved one, a replayed one, and one left for reconciliation. */
  lemma SubmissionsAreReportable(w: World, now: string, raw: Bytes, estimate: int)
    requires Inv(w) && w.state.adjudicationCompleted >= 1
    requires EstimateMicros(w.state.actualPrimaryCost).Some? && 0 <= estimate <= CAP
    ensures w.job.SavingSubmitted? && 0 < |raw| <= FILE_MAX ==>
      Contracts.ValidSubmission(SubmissionReportFor(SaveSubmission(w, now, raw).state, Contracts.Submitted, estimate).value)
    ensures w.state.status == AdjudicationSubmitted ==>
      Contracts.ValidSubmission(SubmissionReportFor(w.state, Contracts.AlreadySubmitted, estimate).value)
    ensures w.state.status == AdjudicationPartCompleted && w.state.adjudicationCompleted < w.state.adjudicationParts ==>
      Contracts.ValidSubmission(SubmissionReportFor(w.state, Contracts.Reconcile, estimate).value)
  {
    hide RequestInv, OutputInv;
  }
}
