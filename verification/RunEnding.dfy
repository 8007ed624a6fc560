/** Which runs can still be finished: those, exactly, whose evidence every
    reader takes and whose directory has room for what is missing. */
module RunEnding {
  import opened Names
  import opened RunState
  import opened Files
  import opened RunDisk
  import opened RunMachine
  import opened RunSafety
  import opened RunInvariant
  import opened RunTheorems
  import opened RunProgress
  import opened RunFinish
  import opened RunSizes

  /** Every part observed, and every file one a reader takes. */
  ghost predicate Ended(w: World) {
    && Finished(w) && DiskReadable(w.disk)
    && PartsUsable(w.disk, w.state.adjudicationParts, w.state.adjudicationParts)
  }

  /** The files still to be written: an intent, a completed record and an
      output for every part, one byte each at the least. */
  function Need(w: World): int {
    3 * w.state.adjudicationParts - |w.disk.intents| - |w.disk.completions| - |w.disk.outputs|
  }

  /** Nothing that dooms the run, now or at a later part. */
  ghost predicate Hopeful(w: World) {
    && w.state.status != Failed && !Unreconciled(w) && !StoredUnsaved(w)
    && DiskReadable(w.disk) && Load(w.disk) + Need(w) < TOTAL_MAX
    && PartsUsable(w.disk, |w.disk.completions|, w.state.adjudicationCompleted)
    && forall p :: p in w.disk.requests ==> Bounded(w.disk.requests[p])
  }

  /** The events lead to the end. */
  ghost predicate Leads(w: World, events: seq<Event>) { Ended(Run(w, events)) }

  // ----------------------------------------------- what an ended run tells

  lemma {:induction false} TotalGrows<K>(a: map<K, Bytes>, b: map<K, Bytes>)
    requires Kept(a, b) && forall k :: k in b ==> |b[k]| > 0
    ensures Total(b) >= Total(a) + |b| - |a|
    decreases |b|
  {
    hide Total;
    if k :| k in b && k !in a {
      TotalRemove(b, k);
      TotalGrows(a, b - {k});
    } else {
      assert a == b;
    }
  }

  /** The bytes already stored stay, and every file still missing takes one. */
  lemma LoadGrows(d: Disk, d': Disk)
    requires DiskExtends(d, d') && AllSized(d') && d.terminal == d'.terminal
    ensures Load(d') >= Load(d) + (|d'.intents| - |d.intents|) + (|d'.completions| - |d.completions|)
                        + (|d'.outputs| - |d.outputs|)
  {
    hide Total, TerminalFile;
    BytesCount(d);
    BytesCount(d');
    TotalGrows(IntentBytes(d.intents), IntentBytes(d'.intents));
    TotalGrows(CompletionBytes(d.completions), CompletionBytes(d'.completions));
    TotalGrows<nat>(d.outputs, d'.outputs);
    TotalSubset<nat>(d.errors, d'.errors);
  }

  lemma BytesCount(d: Disk)
    ensures |IntentBytes(d.intents)| == |d.intents| && |CompletionBytes(d.completions)| == |d.completions|
  {
    assert IntentBytes(d.intents).Keys == d.intents.Keys;
    assert CompletionBytes(d.completions).Keys == d.completions.Keys;
  }

  lemma EndedCounts(w: World)
    requires Inv(w) && Finished(w)
    ensures Need(w) == 0 && w.job == Idle && w.disk.terminal.None?
    ensures w.state.status != Failed && !Unreconciled(w) && !StoredUnsaved(w)
    ensures forall p :: p in w.disk.requests ==> Bounded(w.disk.requests[p])
    ensures |w.disk.completions| == w.state.adjudicationCompleted == w.state.adjudicationParts
  {
    hide Bounded, LogInv, FreshInv, CompletionInv, IdsInv;
  }

  lemma UsableStays(d: Disk, d': Disk, n: nat, k: nat, m: nat)
    requires Kept(d.completions, d'.completions) && Kept(d.outputs, d'.outputs)
    requires PartsUsable(d', m, m) && n <= m && k <= m
    ensures PartsUsable(d, n, k)
  {
    hide KnownStatus, Bounded;
  }

  lemma CountsInRange(w: World)
    requires Inv(w)
    ensures |w.disk.completions| <= w.state.adjudicationParts && w.state.adjudicationCompleted <= w.state.adjudicationParts
  {
    hide JobInv, OutputInv, RequestInv, IntentInv, LogInv, FreshInv, CompletionInv, IdsInv;
  }

  lemma EndedIsHopeful(w: World)
    requires Inv(w) && Inherited(w) && Ended(w)
    ensures Hopeful(w)
  {
    EndedCounts(w);
    ReadableExactly(w);
    hide Inv, Inherited, DiskReadable, PartsUsable, Load, Bounded, Need, Unreconciled, StoredUnsaved, Finished;
  }

  /** A run that can be brought to an end was hopeful. */
  lemma HopeComesFirst(w: World, events: seq<Event>)
    requires Inv(w) && Inherited(w) && w.job == Idle && Ended(Run(w, events))
    ensures Hopeful(w)
  {
    hide Inv, Inherited, Ended, Hopeful, DeadEnd, Run;
    var w' := Run(w, events);
    if DeadEnd(w) {
      DeadEndsAreFinal(w, events);
      EndedIsHopeful(w);
    } else {
      RunKeepsInv(w, events);
      RunKeepsInherited(w, events);
      EvidenceIsFrozen(w, events);
      HopeGoesBack(w, w');
    }
  }

  lemma HopeGoesBack(w: World, w': World)
    requires Inv(w) && Inherited(w) && w.job == Idle && !DeadEnd(w)
    requires Inv(w') && Inherited(w') && Extends(w, w') && Ended(w')
    ensures Hopeful(w)
  {
    hide Inv, Inherited, DeadEnd, DiskReadable, PartsUsable, Load, Need, Bounded, AllSized, Unreconciled, StoredUnsaved,
         Finished, Extends, DiskExtends, Kept;
    EndedCounts(w');
    ReadableExactly(w');
    CountsInRange(w);
    GoingOnIsLive(w);
    ExtendsPieces(w, w');
    RoomWasLeft(w, w');
    UsableStays(w.disk, w'.disk, |w.disk.completions|, w.state.adjudicationCompleted, w.state.adjudicationParts);
  }

  lemma GoingOnIsLive(w: World)
    requires w.job == Idle && !DeadEnd(w)
    ensures w.state.status != Failed && !Unreconciled(w) && !StoredUnsaved(w) && DiskReadable(w.disk)
  {
    hide DiskReadable, PartsUsable, Bounded, Unreconciled, StoredUnsaved, Finished;
  }

  lemma ExtendsPieces(w: World, w': World)
    requires Extends(w, w') && w'.disk.terminal.None?
    ensures w'.state.adjudicationParts == w.state.adjudicationParts && DiskExtends(w.disk, w'.disk)
    ensures w.disk.terminal == w'.disk.terminal && w'.disk.requests == w.disk.requests
    ensures Kept(w.disk.completions, w'.disk.completions) && Kept(w.disk.outputs, w'.disk.outputs)
  {
    hide Kept;
  }

  lemma RoomWasLeft(w: World, w': World)
    requires DiskExtends(w.disk, w'.disk) && AllSized(w'.disk) && w.disk.terminal == w'.disk.terminal
    requires w'.state.adjudicationParts == w.state.adjudicationParts && Need(w') == 0
    requires Load(w'.disk) + |w'.disk.stateFile| <= TOTAL_MAX
    ensures Load(w.disk) + Need(w) < TOTAL_MAX
  {
    hide DiskExtends, AllSized, Load;
    SizedState(w'.disk);
    LoadGrows(w.disk, w'.disk);
  }

  lemma SizedState(d: Disk)
    requires AllSized(d)
    ensures 0 < |d.stateFile| <= STATE_MAX
  {
    hide Sized;
  }

  // ------------------------------------------------ the cheapest way to end

  function Long(n: nat): string { seq(n + 1, _ => 'x') }

  /** The shortest round there is, with identifiers of the given length. */
  function Tiny(n: nat): Round {
    Round(Answer(Long(n), Long(n), "completed"), [0], None, "", [0], [0], [0], [0])
  }

  function TinyRounds(n: nat, count: nat): seq<Round> { seq(count, i requires 0 <= i => Tiny(n + i)) }

  lemma TinyIsGood(n: nat)
    ensures Good(Tiny(n)) && Weight(Tiny(n)) == 3
  {
  }

  lemma TinyAnswer(n: nat, count: nat, i: nat)
    requires i < count
    ensures var a := TinyRounds(n, count)[i].answer; |a.batch| == |a.input| == n + i + 1
  {
    LongIsLong(n + i);
    assert TinyRounds(n, count)[i] == Tiny(n + i);
  }

  lemma LongIsLong(n: nat)
    ensures |Long(n)| == n + 1
  {
  }

  /** A length no identifier of the log has. */
  function Beyond(log: seq<Submission>): nat {
    if log == [] then 0 else
    var (n, a) := (Beyond(log[..|log| - 1]), log[|log| - 1].answer);
    n + |a.batch| + |a.input|
  }

  lemma {:induction false} BeyondIsBeyond(log: seq<Submission>)
    ensures forall s :: s in log ==> |s.answer.batch| <= Beyond(log) && |s.answer.input| <= Beyond(log)
  {
    if log != [] { BeyondIsBeyond(log[..|log| - 1]); }
  }

  lemma TinySupply(log: seq<Submission>, count: nat)
    ensures Supply(TinyRounds(Beyond(log), count), log)
  {
    hide Long, Beyond;
    var n := Beyond(log);
    BeyondIsBeyond(log);
    var rounds := TinyRounds(n, count);
    forall i | 0 <= i < count
      ensures NewIds(log, rounds[i].answer)
    {
      TinyAnswer(n, count, i);
    }
    forall i, j | 0 <= i < j < count
      ensures rounds[i].answer.batch != rounds[j].answer.batch && rounds[i].answer.input != rounds[j].answer.input
    {
      TinyAnswer(n, count, i);
      TinyAnswer(n, count, j);
    }
  }

  lemma {:induction false} TinyFits(load: nat, n: nat, count: nat)
    requires load + 3 * count + 1 <= TOTAL_MAX
    ensures Fits(load, TinyRounds(n, count))
    decreases count
  {
    hide Tiny, FitsOne;
    if count > 0 {
      TinyRest(n, count);
      TinyFitsOne(load, n);
      TinyIsGood(n);
      TinyFits(load + 3, n + 1, count - 1);
    }
  }

  lemma TinyRest(n: nat, count: nat)
    requires count > 0
    ensures var rounds := TinyRounds(n, count); rounds[0] == Tiny(n) && rounds[1..] == TinyRounds(n + 1, count - 1)
  {
    hide Tiny;
  }

  lemma TinyFitsOne(load: nat, n: nat)
    requires load + 4 <= TOTAL_MAX
    ensures FitsOne(load, Tiny(n))
  {
  }

  lemma TinyAreGood(n: nat, count: nat)
    ensures forall i :: 0 <= i < count ==> Good(TinyRounds(n, count)[i])
  {
    hide Tiny, Good;
    forall m: nat { TinyIsGood(m); }
  }

  // ------------------------------------------------- hope leads to an end

  /** Nothing pending, nothing recorded ahead. */
  lemma RestingRunEnds(w: World) returns (events: seq<Event>)
    requires Inv(w) && Inherited(w) && w.job == Idle && Hopeful(w)
    requires Resting(w.state) && |w.disk.intents| == |w.state.batchIds|
    ensures Ended(Run(w, events))
  {
    hide Inv, Inherited, Hopeful, Load, Run, AllEvents, Supply, Good, Fits, TinyRounds, DiskReadable, PartsUsable, Healthy,
         AllSized, Finished, AllHold, Resting, Beyond;
    var count := w.state.adjudicationParts - w.state.adjudicationCompleted;
    RestingRoom(w);
    var rounds := TinyRounds(Beyond(w.log), count);
    TinyCount(Beyond(w.log), count);
    TinySupply(w.log, count);
    TinyAreGood(Beyond(w.log), count);
    TinyFits(Load(w.disk), Beyond(w.log), count);
    RunCanFinish(w, rounds);
    PartCountStays(w, AllEvents(rounds));
    events := AllEvents(rounds);
  }

  lemma TinyCount(n: nat, count: nat)
    ensures |TinyRounds(n, count)| == count
  {
  }

  lemma RestingRoom(w: World)
    requires Inv(w) && Inherited(w) && w.job == Idle && Hopeful(w)
    requires Resting(w.state) && |w.disk.intents| == |w.state.batchIds|
    ensures Healthy(w) && w.state.adjudicationCompleted <= w.state.adjudicationParts
    ensures Load(w.disk) + |w.disk.stateFile| <= TOTAL_MAX
    ensures Load(w.disk) + 3 * (w.state.adjudicationParts - w.state.adjudicationCompleted) + 1 <= TOTAL_MAX
  {
    hide Inv, Inherited, Load, DiskReadable, PartsUsable, AllSized, Resting, Bounded, Unreconciled, StoredUnsaved;
    RestingFiles(w);
    ReadableExactly(w);
  }

  lemma RestingFiles(w: World)
    requires Inv(w) && Resting(w.state) && |w.disk.intents| == |w.state.batchIds|
    ensures |w.state.batchIds| == w.state.adjudicationCompleted <= w.state.adjudicationParts
    ensures |w.disk.intents| == |w.disk.completions| == |w.disk.outputs| == w.state.adjudicationCompleted
  {
    hide JobInv, RequestInv, IntentInv, LogInv, FreshInv, CompletionInv, IdsInv;
  }

  /** A submitted part: observe it, then the rest. */
  lemma SubmittedRunEnds(w: World) returns (events: seq<Event>)
    requires Inv(w) && Inherited(w) && w.job == Idle && Hopeful(w) && w.state.status == AdjudicationSubmitted
    ensures Ended(Run(w, events))
  {
    hide Inv, Inherited, Hopeful, Run, DeadEnd, Ended, ObserveEvents, AfterObserve, Good, Writable, Resting, Tiny;
    var r := Tiny(0);
    TinyIsGood(0);
    RoundIsWritable(r);
    SubmittedIsAlive(w);
    ObservingAPart(w, r);
    var w' := AfterObserve(w, r);
    RunKeepsInv(w, ObserveEvents(r));
    RunKeepsInherited(w, ObserveEvents(r));
    ObservedHope(w);
    var rest := RestingRunEnds(w');
    RunAppend(w, ObserveEvents(r), rest);
    events := ObserveEvents(r) + rest;
  }

  lemma SubmittedIsAlive(w: World)
    requires Inv(w) && w.job == Idle && Hopeful(w) && w.state.status == AdjudicationSubmitted
    ensures !DeadEnd(w)
  {
    hide Inv, DiskReadable, PartsUsable, Load, Bounded, StoredUnsaved;
    SubmittedFiles(w);
  }

  lemma SubmittedFiles(w: World)
    requires Inv(w) && w.state.status == AdjudicationSubmitted
    ensures |w.state.batchIds| == w.state.adjudicationCompleted + 1 <= w.state.adjudicationParts
    ensures |w.disk.intents| == |w.disk.completions| == |w.state.batchIds|
    ensures !StoredUnsaved(w) ==>
      && |w.disk.outputs| == w.state.adjudicationCompleted && w.disk.terminal.None?
      && w.state.adjudicationCompleted + 1 !in w.disk.outputs && w.state.adjudicationCompleted + 1 !in w.disk.errors
  {
    hide JobInv, RequestInv, IntentInv, LogInv, FreshInv, CompletionInv, IdsInv;
  }

  lemma ObservedHope(w: World)
    requires Inv(w) && Inherited(w) && w.job == Idle && Hopeful(w) && w.state.status == AdjudicationSubmitted
    requires Inherited(AfterObserve(w, Tiny(0)))
    ensures var w' := AfterObserve(w, Tiny(0));
      Hopeful(w') && Resting(w'.state) && w'.job == Idle && |w'.disk.intents| == |w'.state.batchIds|
  {
    hide Inv, Inherited, DiskReadable, PartsUsable, Load, Bounded, AllSized, Tiny, Good;
    var (p, r) := (w.state.adjudicationCompleted + 1, Tiny(0));
    var w' := AfterObserve(w, r);
    SubmittedFiles(w);
    ReadableExactly(w);
    ReadableExactly(w');
    TinyIsGood(0);
    TinyFiles();
    ObservedLoad(w.disk, p, r);
    OneByteIsBounded();
    UsableObserved(w.disk, w'.disk, p - 1, r.output);
    assert |w.disk.outputs[p := r.output]| == |w.disk.outputs| + 1;
  }

  lemma TinyFiles()
    ensures var r := Tiny(0); r.output == [0] && r.error.None? && r.observed == [0]
  {
  }

  lemma OneByteIsBounded()
    ensures Bounded([0])
  {
  }

  /** A recorded batch the state does not name yet: recover it first. */
  lemma RecordedRunEnds(w: World) returns (events: seq<Event>)
    requires Inv(w) && Inherited(w) && w.job == Idle && Hopeful(w)
    requires Resting(w.state) && |w.disk.intents| != |w.state.batchIds|
    ensures Ended(Run(w, events))
  {
    hide Inv, Inherited, Hopeful, Run, DeadEnd, Ended, Resting;
    var recover := [StartSubmit([0]), SaveSubmitted("", [0])];
    RecordedIsAlive(w);
    RecoveryReusesTheBatch(w, [0], "", [0]);
    var w' := Run(w, recover);
    RunKeepsInv(w, recover);
    RunKeepsInherited(w, recover);
    PartCountStays(w, recover);
    RecordedCounts(w);
    SubmittedFiles(w');
    RecoveredHope(w, w');
    var rest := SubmittedRunEnds(w');
    RunAppend(w, recover, rest);
    events := recover + rest;
  }

  lemma RecordedIsAlive(w: World)
    requires Inv(w) && w.job == Idle && Hopeful(w)
    requires Resting(w.state) && |w.disk.intents| != |w.state.batchIds|
    ensures !DeadEnd(w) && |w.disk.completions| == |w.state.batchIds| + 1
  {
    hide DiskReadable, PartsUsable, Load, Bounded;
    RecordedCounts(w);
    hide Inv;
    UsableLess(w.disk, |w.disk.completions|, |w.state.batchIds|, w.state.adjudicationCompleted);
  }

  lemma RecordedCounts(w: World)
    requires Inv(w) && Resting(w.state) && |w.disk.intents| != |w.state.batchIds|
    ensures |w.disk.intents| == |w.state.batchIds| + 1
    ensures |w.state.batchIds| == w.state.adjudicationCompleted < w.state.adjudicationParts
    ensures |w.state.batchIds| <= |w.disk.completions| <= |w.state.batchIds| + 1
    ensures |w.disk.outputs| == w.state.adjudicationCompleted && w.disk.terminal.None?
  {
    hide JobInv, RequestInv, IntentInv, LogInv, FreshInv, CompletionInv, IdsInv;
  }

  lemma UsableLess(d: Disk, n: nat, n': nat, k: nat)
    requires PartsUsable(d, n, k) && n' <= n
    ensures PartsUsable(d, n', k)
  {
    hide KnownStatus, Bounded;
  }

  lemma RecoveredHope(w: World, w': World)
    requires Inv(w) && Inherited(w) && Hopeful(w) && Inherited(w') && w'.state.status == AdjudicationSubmitted
    requires Resting(w.state) && |w.disk.intents| != |w.state.batchIds|
    requires w'.disk == w.disk.(stateFile := [0])
    requires w'.state.adjudicationParts == w.state.adjudicationParts
    requires w'.state.adjudicationCompleted == w.state.adjudicationCompleted
    ensures Hopeful(w')
  {
    hide Inv, Inherited, DiskReadable, PartsUsable, Load, Bounded, AllSized;
    RecordedCounts(w);
    ReadableExactly(w);
    ReadableExactly(w');
    OnlyTheState(w.disk, [0]);
  }

  lemma OnlyTheState(d: Disk, raw: Bytes)
    requires |raw| == 1
    ensures var d' := d.(stateFile := raw);
      && Load(d') == Load(d) && (AllSized(d) ==> AllSized(d'))
      && (forall n, k :: PartsUsable(d', n, k) <==> PartsUsable(d, n, k))
  {
    hide Total, Sized, KnownStatus, Bounded;
  }

  /** An idle run can be brought to an end exactly when it is hopeful: it has
      not failed, no intent stands alone and no observation is half stored, the
      directory can be read and has a byte of room for every file still
      missing and one for the state, every recorded batch state is known, every
      stored output can be read back and every request is one the workflow
      takes, those of later parts included. */
  lemma CanFinishExactly(w: World)
    requires Inv(w) && Inherited(w) && w.job == Idle
    ensures (exists events :: Leads(w, events)) <==> Hopeful(w)
  {
    hide Inv, Inherited, Ended, Hopeful, Run;
    if events :| Leads(w, events) {
      HopeComesFirst(w, events);
    } else if Hopeful(w) {
      var events := HopefulRunEnds(w);
      assert Leads(w, events);
    }
  }

  lemma HopefulRunEnds(w: World) returns (events: seq<Event>)
    requires Inv(w) && Inherited(w) && w.job == Idle && Hopeful(w)
    ensures Ended(Run(w, events))
  {
    hide Inv, Inherited, Ended, Run, Hopeful, Resting;
    HopefulIsNotFailed(w);
    if !Resting(w.state) {
      events := SubmittedRunEnds(w);
    } else if |w.disk.intents| == |w.state.batchIds| {
      events := RestingRunEnds(w);
    } else {
      events := RecordedRunEnds(w);
    }
  }

  lemma HopefulIsNotFailed(w: World)
    requires Inv(w) && Hopeful(w)
    ensures Resting(w.state) || w.state.status == AdjudicationSubmitted
  {
    hide DiskReadable, PartsUsable, Load, Bounded, RequestInv, JournalInv, OutputInv, JobInv;
  }
}
