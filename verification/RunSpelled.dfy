/** The steps of a run, one event after another, with everything they change
    written out; and the names each submission worker admits. */
module RunSpelled {
  import opened Names
  import opened RunState
  import opened Inventories
  import opened HandOff
  import opened Chain
  import opened RunDisk
  import opened RunMachine
  import opened RunProgress
  import opened RunFinish
  import Subtitles

  // ------------------------------------------------------- submission names

  lemma SubmissionNamesExactly(st: State)
    ensures FirstSubmission(st).required == Evidence(st, 0, 0).required
    ensures FirstSubmission(st).optional == Evidence(st, 0, 0).optional
      + {PartName(Adjudication, 1, Intent), PartName(Adjudication, 1, Completed)}
    ensures var k := st.adjudicationCompleted;
      var n := if st.status == AdjudicationSubmitted then k + 1 else k;
      && NextSubmission(st).required == Evidence(st, n, k).required
      && NextSubmission(st).optional == Evidence(st, n, k).optional +
           (if st.status == AdjudicationPartCompleted
            then {PartName(Adjudication, k + 1, Intent), PartName(Adjudication, k + 1, Completed),
                  PartName(Adjudication, k + 1, Output), PartName(Adjudication, k + 1, ApiErrors)}
            else {})
  {
    hide PartName;
    var k := st.adjudicationCompleted;
    ShuffleFor(st, if st.status == AdjudicationSubmitted then k + 1 else k, k);
    NothingSubmitted(st);
    assert Parts(Adjudication, ApiErrors, 1, 0) == {};
  }

  // ------------------------------------------------------------- one part

  /** A part submitted without interruption: one intent with the prepared
      bytes, one call with them, one completed record with the answer, and a
      state that names the batch and its input file, each in its own field. */
  lemma SubmissionWritesOut(w: World, a: Answer, intent: Bytes, completed: Bytes, now: string, saved: Bytes)
    requires Inv(w) && Inherited(w) && w.job == Idle && !DeadEnd(w) && Resting(w.state)
    requires |w.disk.intents| == |w.state.batchIds| && NewIds(w.log, a) && AnswerOk(a)
    requires 0 < |intent| <= 4_096 && 0 < |completed| <= 4_096 && 0 < |saved| <= 67_108_864
    ensures var (st, d, p) := (w.state, w.disk, w.state.adjudicationCompleted + 1);
      p in d.requests &&
      Run(w, [StartSubmit(intent), ProviderAccepts(a), RecordCompletion(completed), SaveSubmitted(now, saved)]) ==
      World(st.(status := AdjudicationSubmitted, updatedAt := now, batchId := Some(a.batch), inputId := Some(a.input),
                batchIds := st.batchIds + [a.batch], inputIds := st.inputIds + [a.input]),
            d.(intents := d.intents[p := IntentRecord(request := d.requests[p], raw := intent)],
               completions := d.completions[p := Completion(request := d.requests[p], answer := a, raw := completed)],
               stateFile := saved),
            w.log + [Submission(part := p, request := d.requests[p], answer := a)], Idle)
  {
    hide Inv, Inherited, DeadEnd, Run, Resting, NewIds, AnswerOk;
    var r := Round(a, [], None, now, intent, completed, saved, [0]);
    SubmittingAPart(w, r);
  }

  /** A part observed without interruption: the bytes the provider sent, under
      the part's own names, and a state that counts one part more. */
  lemma ObservationWritesOut(w: World, output: Bytes, error: Option<Bytes>, now: string, saved: Bytes)
    requires Inv(w) && Inherited(w) && w.job == Idle && !DeadEnd(w) && w.state.status == AdjudicationSubmitted
    requires |output| <= 67_108_864 && (error.Some? ==> |error.value| <= 67_108_864) && 0 < |saved| <= 67_108_864
    ensures var (st, d, p) := (w.state, w.disk, w.state.adjudicationCompleted + 1);
      Run(w, [PollCompleted(output, error), WriteOutput, WriteError, SaveObserved(now, saved)]) ==
      World(st.(status := AdjudicationPartCompleted, updatedAt := now, adjudicationCompleted := p),
            d.(outputs := d.outputs[p := output],
               errors := if error.Some? then d.errors[p := error.value] else d.errors,
               stateFile := saved),
            w.log, Idle)
  {
    hide Inv, Inherited, DeadEnd, Run;
    assert Subtitles.Trimmed("x");
    var r := Round(Answer("x", "x", "x"), output, error, now, [0], [0], [0], saved);
    ObservingAPart(w, r);
  }

  // ---------------------------------------------------- what stops a step

  /** An answer is taken when its three fields are neither empty nor padded. */
  lemma AnswersSpelled(a: Answer)
    ensures AnswerOk(a) <==>
      && a.batch != "" && !Subtitles.IsSpace(a.batch[0]) && !Subtitles.IsSpace(a.batch[|a.batch| - 1])
      && a.input != "" && !Subtitles.IsSpace(a.input[0]) && !Subtitles.IsSpace(a.input[|a.input| - 1])
      && a.status != "" && !Subtitles.IsSpace(a.status[0]) && !Subtitles.IsSpace(a.status[|a.status| - 1])
  {
    hide Subtitles.IsSpace;
  }

  /** A call that fails is logged when the provider took the batch, and leaves
      nothing else behind; an answer that is refused is logged all the same. */
  lemma FailedCallsSpelled(w: World, a: Answer)
    requires w.job.Calling? && NewIds(w.log, a)
    ensures var taken := Submission(part := w.job.part, request := w.job.request, answer := a);
      && Next(w, ProviderCallFails(None)) == w.(job := Idle)
      && Next(w, ProviderCallFails(Some(a))) == w.(log := w.log + [taken], job := Idle)
      && (!AnswerOk(a) ==> Next(w, ProviderAccepts(a)) == w.(log := w.log + [taken], job := Idle))
  {
    hide NewIds, AnswerOk;
  }

  /** Writes that are refused leave every file as it was: a record over 4 KiB or
      one that is there already, a state text over 64 MiB. */
  lemma RefusedRecords(w: World, raw: Bytes, now: string)
    ensures w.job.Recording? && (|raw| > 4_096 || w.job.accepted.part in w.disk.completions) && raw != [] ==>
      Next(w, RecordCompletion(raw)) == w.(job := Idle)
    ensures |raw| > 67_108_864 ==>
      && (w.job.SavingSubmitted? ==> Next(w, SaveSubmitted(now, raw)) == w.(job := Idle))
      && (w.job.SavingObserved? ==> Next(w, SaveObserved(now, raw)) == w.(job := Idle))
      && (w.job.SavingFailed? ==> Next(w, SaveFailed(now, raw)) == w.(job := Idle))
  {
  }

  /** And evidence over 64 MiB, or other than what is stored under the name. */
  lemma RefusedEvidence(w: World)
    ensures var p := w.state.adjudicationCompleted + 1;
      w.job.StoringOutput? && (|w.job.output| > 67_108_864 || (p in w.disk.outputs && w.disk.outputs[p] != w.job.output)) ==>
        Next(w, WriteOutput) == w.(job := Idle)
    ensures w.job.StoringError? && w.job.error.Some? ==>
      var (p, error) := (w.state.adjudicationCompleted + 1, w.job.error.value);
      |error| > 67_108_864 || (p in w.disk.errors && w.disk.errors[p] != error) ==> Next(w, WriteError) == w.(job := Idle)
    ensures w.job.StoringTerminal?
            && (|w.job.evidence| > 67_108_864 || (w.disk.terminal.Some? && w.disk.terminal.value != w.job.evidence)) ==>
      Next(w, WriteTerminal) == w.(job := Idle)
  {
  }

  /** The journal check, record by record: any other request bound, any other
      batch or input file named, any other state recorded, or a record missing,
      and the part is refused. */
  lemma RecordRefusals(st: State, d: Disk, p: nat, r: Bytes, a: Answer, raw: Bytes)
    requires RecordValid(st, d, p)
    ensures RecordValid(st, d.(intents := d.intents[p := IntentRecord(r, raw)]), p) <==> r == d.requests[p]
    ensures RecordValid(st, d.(completions := d.completions[p := Completion(r, a, raw)]), p) <==>
      && r == d.requests[p] && (a.status == "validating" || a.status == "completed" || a.status == "failed")
      && a.batch == st.batchIds[p - 1] && a.input == st.inputIds[p - 1]
    ensures RecordValid(st, d.(requests := d.requests[p := r]), p) <==> r == d.requests[p]
    ensures !RecordValid(st, d.(intents := d.intents - {p}), p) && !RecordValid(st, d.(completions := d.completions - {p}), p)
    ensures !RecordValid(st, d.(requests := d.requests - {p}), p)
    ensures forall b, i :: RecordValid(st.(batchIds := b, inputIds := i), d, p) ==>
      && 1 <= p <= |b| && p <= |i| && b[p - 1] == st.batchIds[p - 1] && i[p - 1] == st.inputIds[p - 1]
    ensures 0 < |d.requests[p]| <= 33_554_432
  {
  }

  /** What every submission needs, whatever the run went through before. */
  lemma AdmittedSubmission(w: World)
    requires SubmissionAdmits(w)
    ensures var (st, k) := (w.state, w.state.adjudicationCompleted);
      && DiskReadable(w.disk) && k < st.adjudicationParts && |st.batchIds| == |st.inputIds| == k
      && (st.status == AdjudicationPrepared || st.status == AdjudicationPartCompleted)
      && (st.status == AdjudicationPrepared ==> k == 0 && st.batchId == None && st.inputId == None)
      && (st.status == AdjudicationPartCompleted ==>
            && k > 0 && st.batchId == Some(st.batchIds[k - 1]) && st.inputId == Some(st.inputIds[k - 1])
            && AllDiffer(st.batchIds) && AllDiffer(st.inputIds) && AllNamed(st.batchIds) && AllNamed(st.inputIds)
            && k + 1 !in w.disk.outputs && k + 1 !in w.disk.errors
            && forall p: nat :: 1 <= p <= k ==> RecordValid(st, w.disk, p) && p in w.disk.outputs && Bounded(w.disk.outputs[p]))
  {
    hide DiskReadable, RecordValid, Bounded, FirstSubmission, NextSubmission, DiskNames, AllTrimmed, AllNamed;
    NamedIds(w.state.batchIds);
    NamedIds(w.state.inputIds);
  }

  predicate AllDiffer(ids: seq<string>) { forall i, j :: 0 <= i < j < |ids| ==> ids[i] != ids[j] }

  predicate AllNamed(ids: seq<string>) {
    forall i :: 0 <= i < |ids| ==> ids[i] != "" && !Subtitles.IsSpace(ids[i][0]) && !Subtitles.IsSpace(ids[i][|ids[i]| - 1])
  }

  lemma NamedIds(ids: seq<string>)
    ensures AllTrimmed(ids) <==> AllNamed(ids)
  {
    hide Subtitles.IsSpace;
    assert forall i :: 0 <= i < |ids| ==> ids[i] in ids;
  }

  /** What every observation needs. */
  lemma AdmittedObservation(w: World)
    requires ObserverAdmits(w)
    ensures var (st, k) := (w.state, w.state.adjudicationCompleted);
      && DiskReadable(w.disk) && st.status == AdjudicationSubmitted && k < st.adjudicationParts
      && |st.batchIds| == |st.inputIds| == k + 1
      && st.batchId == Some(st.batchIds[k]) && st.inputId == Some(st.inputIds[k])
      && AllDiffer(st.batchIds) && AllDiffer(st.inputIds) && AllNamed(st.batchIds) && AllNamed(st.inputIds)
      && (k > 0 ==>
            && RecordValid(st, w.disk, k + 1)
            && forall p: nat :: 1 <= p <= k ==> RecordValid(st, w.disk, p) && p in w.disk.outputs && Bounded(w.disk.outputs[p]))
  {
    hide DiskReadable, RecordValid, Bounded, FirstObserver, NextObserver, DiskNames, AllTrimmed, AllNamed;
    NamedIds(w.state.batchIds);
    NamedIds(w.state.inputIds);
  }

  /** The workflow's check of a whole adjudication stage. */
  lemma StageCompleteExactly(st: State, d: Disk)
    ensures StageComplete(st, d) <==>
      var m := st.adjudicationParts;
      && m >= 1 && st.adjudicationCompleted == m && |st.batchIds| == m && |st.inputIds| == m
      && AllDiffer(st.batchIds) && AllDiffer(st.inputIds) && AllNamed(st.batchIds) && AllNamed(st.inputIds)
      && forall p: nat :: 1 <= p <= m ==> RecordValid(st, d, p) && p in d.outputs && Bounded(d.outputs[p])
  {
    hide RecordValid, Bounded, AllTrimmed, AllNamed;
    NamedIds(st.batchIds);
    NamedIds(st.inputIds);
  }

  /** What the replay of a saved observation needs, from the second part on. */
  lemma AdmittedReplay(w: World)
    requires ReplayAdmits(w)
    ensures DiskReadable(w.disk)
    ensures w.state.adjudicationCompleted != 1 ==>
      var (st, k) := (w.state, w.state.adjudicationCompleted);
      && st.status == AdjudicationPartCompleted && 1 < k <= st.adjudicationParts
      && |st.batchIds| == k && |st.inputIds| == k
      && st.batchId == Some(st.batchIds[k - 1]) && st.inputId == Some(st.inputIds[k - 1])
      && (forall p :: p in w.disk.errors ==> 0 < |w.disk.errors[p]| <= 33_554_432)
      && forall p: nat :: 1 <= p <= k ==> RecordValid(st, w.disk, p) && p in w.disk.outputs && Bounded(w.disk.outputs[p])
  {
    hide RecordValid, DiskReadable, FirstObserver, NextObserver, DiskNames;
  }
}
