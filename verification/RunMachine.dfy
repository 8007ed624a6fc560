/** The adjudication stage of a run as a machine: submit a part, observe it,
    submit the next.  Each step is one durable write, one provider call or one
    crash, so that every sequence of events is a run with arbitrary crashes,
    retries and provider failures.  */
module RunMachine {
  import opened Names
  import opened Lists
  import opened RunState
  import opened Files
  import opened Inventories
  import opened PrimaryProcessing
  import opened HandOff
  import opened Observers
  import opened RunDisk
  import Subtitles

  /** One batch the provider accepted. */
  datatype Submission = Submission(part: nat, request: Bytes, answer: Answer)

  /** What the running worker holds in memory; a crash loses it. */
  datatype Job =
    | Idle
    | Calling(part: nat, request: Bytes)
    | Recording(accepted: Submission)
    | SavingSubmitted(batch: string, input: string)
    | StoringOutput(output: Bytes, error: Option<Bytes>)
    | StoringError(error: Option<Bytes>)
    | SavingObserved
    | StoringTerminal(evidence: Bytes)
    | SavingFailed

  /** `log` is the provider's own record of accepted batches, oldest first. */
  datatype World = World(state: State, disk: Disk, log: seq<Submission>, job: Job)

  /** A step that writes a record or the state carries the bytes it writes,
      whatever the serialiser makes of them; they are never empty. */
  datatype Event =
    | StartSubmit(raw: Bytes)
    | ProviderAccepts(answer: Answer)
    | ProviderCallFails(taken: Option<Answer>)
    | RecordCompletion(raw: Bytes)
    | SaveSubmitted(now: string, raw: Bytes)
    | PollWaiting
    | PollCompleted(output: Bytes, error: Option<Bytes>)
    | PollFailed(evidence: Bytes)
    | WriteOutput
    | WriteError
    | SaveObserved(now: string, raw: Bytes)
    | WriteTerminal
    | SaveFailed(now: string, raw: Bytes)
    | Crash

  // ---------------------------------------------------------------- guards

  predicate AllTrimmed(ids: seq<string>) { forall id :: id in ids ==> Subtitles.Trimmed(id) }

  /** The journal of one part as a later step checks it: both records bind the
      request's bytes, the recorded batch is in a known state, and its
      identifiers are the ones the state names. */
  predicate RecordValid(st: State, d: Disk, p: nat) {
    && p in d.requests && Bounded(d.requests[p])
    && p in d.intents && p in d.completions
    && d.intents[p].request == d.requests[p] == d.completions[p].request
    && KnownStatus(d.completions[p].answer.status)
    && 1 <= p <= |st.batchIds| && p <= |st.inputIds|
    && d.completions[p].answer.batch == st.batchIds[p - 1]
    && d.completions[p].answer.input == st.inputIds[p - 1]
  }

  /** The completed parts, each with its journal and an output to read back. */
  ghost predicate PartsValid(st: State, d: Disk, n: nat) {
    forall p: nat :: 1 <= p <= n ==> RecordValid(st, d, p) && p in d.outputs && Bounded(d.outputs[p])
  }

  /** The first submission worker's inventory of a prepared run. */
  function FirstSubmission(st: State): Interval {
    Interval(PrimaryFiles(st) + PreparedDerived(st),
             PrimaryErrors(st) + {PartName(Adjudication, 1, Intent), PartName(Adjudication, 1, Completed)})
  }

  /** Both submission workers, with the shape their workflow step demands. */
  ghost predicate SubmissionAdmits(w: World) {
    var st, d := w.state, w.disk;
    var k := st.adjudicationCompleted;
    match st.status
    case AdjudicationPrepared =>
      && st.adjudicationParts > 0 && k == 0
      && st.batchId == None && st.inputId == None && st.batchIds == [] && st.inputIds == []
      && FirstSubmission(st).Accepts(DiskNames(d)) && DiskReadable(d)
    case AdjudicationPartCompleted =>
      && 0 < k < st.adjudicationParts
      && |st.batchIds| == k && |st.inputIds| == k
      && IdsOk(st)
      && LastIs(st.batchId, st.batchIds) && LastIs(st.inputId, st.inputIds)
      && k + 1 !in d.outputs && k + 1 !in d.errors
      && NextSubmission(st).Accepts(DiskNames(d)) && DiskReadable(d) && PartsValid(st, d, k)
    case _ => false
  }

  predicate IdsOk(st: State) {
    && Distinct(st.batchIds) && Distinct(st.inputIds)
    && AllTrimmed(st.batchIds) && AllTrimmed(st.inputIds)
  }

  /** The observer whose turn it is: the first one, then the generic one, which
      also looks back at the completed parts and at the active part's journal. */
  ghost predicate ObserverAdmits(w: World) {
    var st, d := w.state, w.disk;
    if st.adjudicationCompleted == 0 then
      && FirstCheckpoint(st) && IdsOk(st)
      && FirstObserver(st, false).Accepts(DiskNames(d)) && DiskReadable(d)
    else
      && NextCheckpoint(st) && IdsOk(st)
      && NextObserver(st).Accepts(DiskNames(d)) && DiskReadable(d)
      && PartsValid(st, d, st.adjudicationCompleted) && RecordValid(st, d, st.adjudicationCompleted + 1)
  }

  /** The provider never hands out an identifier twice. */
  predicate NewIds(log: seq<Submission>, a: Answer) {
    forall s :: s in log ==> s.answer.batch != a.batch && s.answer.input != a.input
  }

  // ----------------------------------------------------------------- steps

  /** One submission step reads the request and the journal before anything
      else.  A completed record is reused, a lone record is left for
      reconciliation, and only with no record at all is an intent written and
      the provider called. */
  function Submit(w: World, raw: Bytes): World {
    var d, p := w.disk, w.state.adjudicationCompleted + 1;
    if p !in d.requests || !Bounded(d.requests[p]) then w
    else if p in d.intents && p in d.completions then
      if d.intents[p].request == d.requests[p] == d.completions[p].request
      then w.(job := SavingSubmitted(d.completions[p].answer.batch, d.completions[p].answer.input))
      else w
    else if p in d.intents || p in d.completions || !(0 < |raw| <= RECORD_MAX) then w
    else w.(disk := d.(intents := d.intents[p := IntentRecord(d.requests[p], raw)]), job := Calling(p, d.requests[p]))
  }

  ghost function Start(w: World, raw: Bytes): World {
    if w.job.Idle? && SubmissionAdmits(w) then Submit(w, raw) else w
  }

  /** An answer with a blank or padded field is refused, though the provider
      has the batch. */
  function Accept(w: World, a: Answer): World {
    if w.job.Calling? && NewIds(w.log, a) then
      var s := Submission(w.job.part, w.job.request, a);
      w.(log := w.log + [s], job := if AnswerOk(a) then Recording(s) else Idle)
    else w
  }

  /** The call fails; the provider may have taken the batch all the same. */
  function Lose(w: World, taken: Option<Answer>): World {
    if !w.job.Calling? then w
    else if taken.None? then w.(job := Idle)
    else if NewIds(w.log, taken.value) then
      w.(log := w.log + [Submission(w.job.part, w.job.request, taken.value)], job := Idle)
    else w
  }

  function Record(w: World, raw: Bytes): World {
    if !w.job.Recording? || raw == [] then w
    else if w.job.accepted.part in w.disk.completions || |raw| > RECORD_MAX then w.(job := Idle)
    else
      var s := w.job.accepted;
      w.(disk := w.disk.(completions := w.disk.completions[s.part := Completion(s.request, s.answer, raw)]),
         job := SavingSubmitted(s.answer.batch, s.answer.input))
  }

  /** The state file is replaced in one step, unless its new text is too long. */
  function Save(w: World, st: State, raw: Bytes): World {
    if raw == [] then w
    else if |raw| > FILE_MAX then w.(job := Idle)
    else w.(state := st, disk := w.disk.(stateFile := raw), job := Idle)
  }

  function Submitted(st: State, batch: string, input: string, now: string): State {
    st.(status := AdjudicationSubmitted, updatedAt := now,
        batchId := Some(batch), inputId := Some(input),
        batchIds := st.batchIds + [batch], inputIds := st.inputIds + [input])
  }

  function SaveSubmission(w: World, now: string, raw: Bytes): World {
    if w.job.SavingSubmitted? then Save(w, Submitted(w.state, w.job.batch, w.job.input, now), raw) else w
  }

  ghost function Poll(w: World, job: Job): World {
    if w.job.Idle? && ObserverAdmits(w) then w.(job := job) else w
  }

  /** Evidence files are written once: too much, or other bytes under the name,
      is refused.  An empty file is stored. */
  function StoreOutput(w: World): World {
    var d, p := w.disk, w.state.adjudicationCompleted + 1;
    if !w.job.StoringOutput? then w
    else if |w.job.output| > FILE_MAX || (p in d.outputs && d.outputs[p] != w.job.output) then w.(job := Idle)
    else w.(disk := d.(outputs := d.outputs[p := w.job.output]), job := StoringError(w.job.error))
  }

  function StoreError(w: World): World {
    var d, p := w.disk, w.state.adjudicationCompleted + 1;
    if !w.job.StoringError? then w
    else if w.job.error.None? then w.(job := SavingObserved)
    else if |w.job.error.value| > FILE_MAX || (p in d.errors && d.errors[p] != w.job.error.value) then w.(job := Idle)
    else w.(disk := d.(errors := d.errors[p := w.job.error.value]), job := SavingObserved)
  }

  function StoreTerminal(w: World): World {
    if !w.job.StoringTerminal? then w
    else if |w.job.evidence| > FILE_MAX || (w.disk.terminal.Some? && w.disk.terminal.value != w.job.evidence)
    then w.(job := Idle)
    else w.(disk := w.disk.(terminal := Some(w.job.evidence)), job := SavingFailed)
  }

  function Observed(st: State, now: string): State {
    st.(status := AdjudicationPartCompleted, updatedAt := now,
        adjudicationCompleted := st.adjudicationCompleted + 1)
  }

  function SaveObservation(w: World, now: string, raw: Bytes): World {
    if w.job.SavingObserved? then Save(w, Observed(w.state, now), raw) else w
  }

  function SaveFailure(w: World, now: string, raw: Bytes): World {
    if w.job.SavingFailed? then Save(w, w.state.(status := Failed, updatedAt := now), raw) else w
  }

  /** The running worker, the provider or a crash. */
  function Advance(w: World, e: Event): World {
    match e
    case ProviderAccepts(answer) => Accept(w, answer)
    case ProviderCallFails(taken) => Lose(w, taken)
    case RecordCompletion(raw) => Record(w, raw)
    case SaveSubmitted(now, raw) => SaveSubmission(w, now, raw)
    case WriteOutput => StoreOutput(w)
    case WriteError => StoreError(w)
    case SaveObserved(now, raw) => SaveObservation(w, now, raw)
    case WriteTerminal => StoreTerminal(w)
    case SaveFailed(now, raw) => SaveFailure(w, now, raw)
    case Crash => w.(job := Idle)
    case _ => w
  }

  /** An event that is not enabled changes nothing. */
  ghost function Next(w: World, e: Event): World {
    match e
    case StartSubmit(raw) => Start(w, raw)
    case PollCompleted(output, error) => Poll(w, StoringOutput(output, error))
    case PollFailed(evidence) => Poll(w, StoringTerminal(evidence))
    case PollWaiting => w
    case _ => Advance(w, e)
  }

  ghost function Run(w: World, events: seq<Event>): World
    decreases |events|
  {
    if events == [] then w else Run(Next(w, events[0]), events[1..])
  }

  // -------------------------------------------------------------- invariant

  /** The saved state, by itself. */
  predicate StateInv(st: State) {
    var n, k := |st.batchIds|, st.adjudicationCompleted;
    && st.primaryParts >= 1 && st.adjudicationParts >= 1
    && k <= st.adjudicationParts && |st.inputIds| == n
    && (match st.status
        case AdjudicationPrepared => k == 0 && n == 0
        case AdjudicationSubmitted => n == k + 1 <= st.adjudicationParts
        case AdjudicationPartCompleted => n == k >= 1
        case Failed => n == k + 1 <= st.adjudicationParts
        case _ => false)
    && (if n == 0 then st.batchId == None && st.inputId == None
        else LastIs(st.batchId, st.batchIds) && LastIs(st.inputId, st.inputIds))
  }

  /** Records exist for the parts from 1 on, without a gap. */
  ghost predicate Dense<V>(m: map<nat, V>) { forall p: nat :: p in m <==> 1 <= p <= |m| }

  /** The prepared requests: one for every part. */
  ghost predicate RequestInv(st: State, d: Disk) {
    Dense(d.requests) && |d.requests| == st.adjudicationParts
  }

  /** What earlier stages left, when they left what they should; the state
      file is kept apart. */
  ghost predicate Inherited(w: World) {
    RUN_STATE !in w.disk.base && Within(BaseNames(w.disk), PrimaryFiles(w.state) + PrimaryDerived(), PrimaryErrors(w.state))
  }

  /** How far each record may run ahead, with `n` parts saved as submitted and
      `k` observed: an intent before every call, a completed record only after
      an accepted one, and never two calls for a part. */
  predicate CountInv(n: nat, k: nat, parts: nat, intents: nat, completions: nat, calls: nat) {
    && n <= completions <= calls <= intents <= n + 1
    && (intents == n + 1 ==> n == k < parts)
  }

  /** An intent is written for a request the workflow could read. */
  predicate IntentInv(intents: map<nat, IntentRecord>, requests: map<nat, Bytes>) {
    forall p :: p in intents ==> p in requests && intents[p].request == requests[p] && Bounded(requests[p])
  }

  /** The provider accepted part after part, each with its prepared bytes. */
  predicate LogInv(log: seq<Submission>, requests: map<nat, Bytes>) {
    forall i :: 0 <= i < |log| ==> log[i].part == i + 1 && i + 1 in requests && log[i].request == requests[i + 1]
  }

  predicate FreshInv(log: seq<Submission>) {
    forall i, j :: 0 <= i < j < |log| ==>
      log[i].answer.batch != log[j].answer.batch && log[i].answer.input != log[j].answer.input
  }

  predicate CompletionInv(completions: map<nat, Completion>, log: seq<Submission>) {
    forall i :: 0 <= i < |log| && i + 1 in completions ==>
      && completions[i + 1].request == log[i].request && completions[i + 1].answer == log[i].answer
      && AnswerOk(log[i].answer)
  }

  /** The identifiers the state names are the provider's answers. */
  predicate IdsInv(batchIds: seq<string>, inputIds: seq<string>, log: seq<Submission>) {
    && |inputIds| == |batchIds| <= |log|
    && forall i :: 0 <= i < |batchIds| ==> batchIds[i] == log[i].answer.batch && inputIds[i] == log[i].answer.input
  }

  ghost predicate JournalInv(st: State, d: Disk, log: seq<Submission>) {
    && CountInv(|st.batchIds|, st.adjudicationCompleted, st.adjudicationParts, |d.intents|, |d.completions|, |log|)
    && Dense(d.intents) && Dense(d.completions)
    && IntentInv(d.intents, d.requests) && LogInv(log, d.requests) && FreshInv(log)
    && CompletionInv(d.completions, log) && IdsInv(st.batchIds, st.inputIds, log)
  }

  /** Outputs: one for every completed part, and at most the active one more. */
  ghost predicate OutputInv(st: State, d: Disk) {
    var k, stored := st.adjudicationCompleted, |d.outputs|;
    && Dense(d.outputs) && d.errors.Keys <= d.outputs.Keys
    && (stored == k || (stored == k + 1 && st.status == AdjudicationSubmitted))
    && (d.terminal.Some? ==> st.status in {AdjudicationSubmitted, Failed} && stored == k)
    && (st.status == Failed ==> d.terminal.Some?)
  }

  predicate Resting(st: State) { st.status in {AdjudicationPrepared, AdjudicationPartCompleted} }

  /** What the running worker remembers is what is on disk. */
  predicate JobInv(w: World) {
    var st, d, n := w.state, w.disk, |w.state.batchIds|;
    var k := st.adjudicationCompleted;
    match w.job
    case Idle => true
    case Calling(p, r) =>
      && Resting(st) && |d.intents| == n + 1 && |w.log| == n && p == n + 1
      && p in d.intents && r == d.intents[p].request
    case Recording(s) =>
      Resting(st) && |w.log| == n + 1 && |d.completions| == n && s == w.log[n] && AnswerOk(s.answer)
    case SavingSubmitted(batch, input) =>
      && Resting(st) && |d.completions| == n + 1 && |w.log| == n + 1
      && batch == w.log[n].answer.batch && input == w.log[n].answer.input
    case StoringOutput(_, _) => st.status == AdjudicationSubmitted && |d.outputs| == k && d.terminal.None?
    case StoringError(_) => st.status == AdjudicationSubmitted && |d.outputs| == k + 1 && k + 1 !in d.errors
    case SavingObserved => st.status == AdjudicationSubmitted && |d.outputs| == k + 1
    case StoringTerminal(_) => st.status == AdjudicationSubmitted && |d.outputs| == k && d.terminal.None?
    case SavingFailed => st.status == AdjudicationSubmitted && |d.outputs| == k && d.terminal.Some?
  }

  ghost predicate Live(w: World) {
    StateInv(w.state) && JournalInv(w.state, w.disk, w.log) && OutputInv(w.state, w.disk) && JobInv(w)
  }

  /** What every reachable world keeps, whatever else is in the directory. */
  ghost predicate Inv(w: World) { RequestInv(w.state, w.disk) && Live(w) }

  /** A run as primary processing leaves it: prepared, nothing submitted. */
  ghost predicate Init(w: World) {
    && w.state.status == AdjudicationPrepared
    && w.state.primaryParts >= 1 && w.state.adjudicationParts >= 1
    && w.state.adjudicationCompleted == 0
    && w.state.batchIds == [] && w.state.inputIds == [] && w.state.batchId == None && w.state.inputId == None
    && RequestInv(w.state, w.disk)
    && w.disk.intents == map[] && w.disk.completions == map[] && w.disk.outputs == map[] && w.disk.errors == map[]
    && w.disk.terminal == None && w.log == [] && w.job == Idle
  }
}
