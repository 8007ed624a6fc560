/** Submission by any number of workers at once.  Reading the request, reading
    each journal record, creating a record and writing it are separate steps,
    and the steps of all workers may be mixed in any order; nothing keeps a
    worker from being started for any part at any time.  A record file is
    created exclusively, and one that was created but not yet written is refused
    by every reader. */
module Interleaving {
  import opened Names
  import opened RunState
  import opened Files
  import opened RunDisk
  import opened RunMachine

  /** A record file: created, or with its contents. */
  datatype Slot<+T> = Claimed | Written(value: T)

  /** Where one worker is in its submission step. */
  datatype Worker =
    | Started(part: nat)
    | HasRequest(part: nat, request: Bytes)
    | SawIntent(part: nat, request: Bytes, intent: Option<Bytes>)
    | SawNothing(part: nat, request: Bytes)
    | WritingIntent(part: nat, request: Bytes, raw: Bytes)
    | AtProvider(part: nat, request: Bytes)
    | HasAnswer(part: nat, request: Bytes, answer: Answer)
    | WritingCompletion(part: nat, request: Bytes, answer: Answer, raw: Bytes)
    | Returned(part: nat, answer: Answer)
    | Stopped

  /** The directory and the provider's log, shared, and the workers. */
  datatype Shared = Shared(requests: map<nat, Bytes>, intents: map<nat, Slot<IntentRecord>>,
                           completions: map<nat, Slot<Completion>>, log: seq<Submission>, workers: map<nat, Worker>)

  datatype Step =
    | Begin(part: nat)
    | ReadRequest
    | ReadIntent
    | ReadCompletion
    | CreateIntent(raw: Bytes)
    | WriteIntent
    | Answered(answer: Answer)
    | CallFails(taken: Option<Answer>)
    | CreateCompletion(raw: Bytes)
    | WriteCompletion
    | Dies

  /** What a worker makes of the intent it looks for. */
  function SeeIntent(s: Shared, p: nat, r: Bytes): Worker {
    if p !in s.intents then SawIntent(p, r, None)
    else match s.intents[p]
      case Claimed => Stopped
      case Written(i) => SawIntent(p, r, Some(i.request))
  }

  /** And of the completed record: with both it returns the recorded batch if
      both bind its request, with neither it goes on, with one it stops. */
  function SeeCompletion(s: Shared, p: nat, r: Bytes, intent: Option<Bytes>): Worker {
    if p !in s.completions then (if intent.None? then SawNothing(p, r) else Stopped)
    else match s.completions[p]
      case Claimed => Stopped
      case Written(c) => if intent == Some(r) && c.request == r then Returned(p, c.answer) else Stopped
  }

  function Moved(s: Shared, id: nat, j: Worker): Shared { s.(workers := s.workers[id := j]) }

  /** One step of worker `id`; a step that is not its turn changes nothing. */
  function Take(s: Shared, id: nat, e: Step): Shared {
    if id !in s.workers then (if e.Begin? then Moved(s, id, Started(e.part)) else s) else
    var j := s.workers[id];
    match (j, e)
    case (_, Dies) => Moved(s, id, Stopped)
    case (Started(p), ReadRequest) =>
      Moved(s, id, if p in s.requests && Bounded(s.requests[p]) then HasRequest(p, s.requests[p]) else Stopped)
    case (HasRequest(p, r), ReadIntent) => Moved(s, id, SeeIntent(s, p, r))
    case (SawIntent(p, r, intent), ReadCompletion) => Moved(s, id, SeeCompletion(s, p, r, intent))
    case (SawNothing(p, r), CreateIntent(raw)) =>
      if p in s.intents || !(0 < |raw| <= RECORD_MAX) then Moved(s, id, Stopped)
      else Moved(s.(intents := s.intents[p := Claimed]), id, WritingIntent(p, r, raw))
    case (WritingIntent(p, r, raw), WriteIntent) =>
      Moved(s.(intents := s.intents[p := Written(IntentRecord(r, raw))]), id, AtProvider(p, r))
    case (AtProvider(p, r), Answered(a)) =>
      if !NewIds(s.log, a) then s
      else Moved(s.(log := s.log + [Submission(p, r, a)]), id, if AnswerOk(a) then HasAnswer(p, r, a) else Stopped)
    case (AtProvider(p, r), CallFails(taken)) =>
      if taken.None? then Moved(s, id, Stopped)
      else if !NewIds(s.log, taken.value) then s
      else Moved(s.(log := s.log + [Submission(p, r, taken.value)]), id, Stopped)
    case (HasAnswer(p, r, a), CreateCompletion(raw)) =>
      if p in s.completions || !(0 < |raw| <= RECORD_MAX) then Moved(s, id, Stopped)
      else Moved(s.(completions := s.completions[p := Claimed]), id, WritingCompletion(p, r, a, raw))
    case (WritingCompletion(p, r, a, raw), WriteCompletion) =>
      Moved(s.(completions := s.completions[p := Written(Completion(r, a, raw))]), id, Returned(p, a))
    case _ => s
  }

  function Mixed(s: Shared, steps: seq<(nat, Step)>): Shared
    decreases |steps|
  {
    if steps == [] then s else Mixed(Take(s, steps[0].0, steps[0].1), steps[1..])
  }

  // -------------------------------------------------------------- invariant

  predicate Logged(log: seq<Submission>, p: nat) { exists i :: 0 <= i < |log| && log[i].part == p }

  /** Between its intent and the end of its step a worker owns its part. */
  predicate Owns(j: Worker) { j.WritingIntent? || j.AtProvider? || j.HasAnswer? || j.WritingCompletion? }

  predicate Knows(s: Shared, p: nat, r: Bytes) { p in s.requests && r == s.requests[p] }

  predicate WorkerOk(s: Shared, j: Worker) {
    match j
    case Started(_) => true
    case HasRequest(p, r) => Knows(s, p, r)
    case SawIntent(p, r, _) => Knows(s, p, r)
    case SawNothing(p, r) => Knows(s, p, r)
    case WritingIntent(p, r, _) => Knows(s, p, r) && p in s.intents && !Logged(s.log, p) && p !in s.completions
    case AtProvider(p, r) => Knows(s, p, r) && p in s.intents && !Logged(s.log, p) && p !in s.completions
    case HasAnswer(p, r, a) => Knows(s, p, r) && p in s.intents && Submission(p, r, a) in s.log && p !in s.completions
    case WritingCompletion(p, r, a, _) =>
      Knows(s, p, r) && p in s.intents && Submission(p, r, a) in s.log && p in s.completions && s.completions[p] == Claimed
    case Returned(p, a) => p in s.requests && Submission(p, s.requests[p], a) in s.log
    case Stopped => true
  }

  predicate LogOk(s: Shared) {
    && (forall i :: 0 <= i < |s.log| ==> s.log[i].part in s.intents && Knows(s, s.log[i].part, s.log[i].request))
    && (forall i, j :: 0 <= i < j < |s.log| ==> s.log[i].part != s.log[j].part)
  }

  predicate RecordsOk(s: Shared) {
    && s.completions.Keys <= s.intents.Keys
    && forall p :: p in s.completions && s.completions[p].Written? ==>
      p in s.requests && Submission(p, s.requests[p], s.completions[p].value.answer) in s.log
  }

  predicate OwnersDiffer(workers: map<nat, Worker>) {
    forall i, j :: i in workers && j in workers && i != j && Owns(workers[i]) && Owns(workers[j]) ==>
      workers[i].part != workers[j].part
  }

  predicate MixInv(s: Shared) {
    && LogOk(s) && RecordsOk(s) && OwnersDiffer(s.workers)
    && forall i :: i in s.workers ==> WorkerOk(s, s.workers[i])
  }

  /** The prepared requests, and nothing submitted. */
  predicate Fresh(s: Shared) {
    s.intents == map[] && s.completions == map[] && s.log == [] && s.workers == map[]
  }

  // ------------------------------------------------------------ every step

  /** What a step does to the shared files: nothing outside part `p`. */
  ghost predicate TouchesOnly(s: Shared, s': Shared, p: nat) {
    && s'.requests == s.requests
    && s.log <= s'.log && (forall i :: |s.log| <= i < |s'.log| ==> s'.log[i].part == p)
    && (forall q :: q in s.intents ==> q in s'.intents)
    && (forall q :: q != p ==>
          (q in s'.completions <==> q in s.completions) && (q in s.completions ==> s'.completions[q] == s.completions[q]))
  }

  lemma OthersKeep(s: Shared, s': Shared, p: nat, j: Worker)
    requires TouchesOnly(s, s', p) && WorkerOk(s, j) && (Owns(j) ==> j.part != p)
    ensures WorkerOk(s', j)
  {
  }

  /** A worker moves, and touches at most its own part. */
  lemma MoveKeeps(s: Shared, s': Shared, id: nat, p: nat, j: Worker)
    requires MixInv(s) && TouchesOnly(s, s', p) && s'.workers == s.workers[id := j]
    requires LogOk(s') && RecordsOk(s') && WorkerOk(s', j)
    requires forall i :: i in s.workers && i != id && Owns(s.workers[i]) ==> s.workers[i].part != p
    requires Owns(j) ==> j.part == p
    ensures MixInv(s')
  {
    hide LogOk, RecordsOk, TouchesOnly, WorkerOk;
    forall i | i in s'.workers
      ensures WorkerOk(s', s'.workers[i])
    {
      if i != id { OthersKeep(s, s', p, s.workers[i]); }
    }
  }

  lemma OnlyOwner(s: Shared, id: nat)
    requires MixInv(s) && id in s.workers && Owns(s.workers[id])
    ensures forall i :: i in s.workers && i != id && Owns(s.workers[i]) ==> s.workers[i].part != s.workers[id].part
  {
    hide LogOk, RecordsOk, WorkerOk;
  }

  lemma NoOwner(s: Shared, id: nat, p: nat)
    requires MixInv(s) && p !in s.intents
    ensures forall i :: i in s.workers && i != id && Owns(s.workers[i]) ==> s.workers[i].part != p
  {
    hide LogOk, RecordsOk, Logged;
    forall i | i in s.workers && Owns(s.workers[i])
      ensures s.workers[i].part in s.intents
    {
      assert WorkerOk(s, s.workers[i]);
    }
  }

  lemma OwnerKeeps(s: Shared, s': Shared, id: nat, j: Worker)
    requires MixInv(s) && id in s.workers && Owns(s.workers[id])
    requires TouchesOnly(s, s', s.workers[id].part) && s'.workers == s.workers[id := j]
    requires LogOk(s') && RecordsOk(s') && WorkerOk(s', j) && (Owns(j) ==> j.part == s.workers[id].part)
    ensures MixInv(s')
  {
    hide MixInv, LogOk, RecordsOk, TouchesOnly, WorkerOk;
    OnlyOwner(s, id);
    MoveKeeps(s, s', id, s.workers[id].part, j);
  }

  /** A worker that owns nothing looks on. */
  lemma LookKeeps(s: Shared, id: nat, j: Worker)
    requires MixInv(s) && WorkerOk(s, j) && !Owns(j)
    ensures MixInv(Moved(s, id, j))
  {
    hide LogOk, RecordsOk;
    var s' := Moved(s, id, j);
    forall i | i in s'.workers
      ensures WorkerOk(s', s'.workers[i])
    {
      SameWorker(s, s', s'.workers[i]);
    }
    SameRecords(s, s');
  }

  lemma SameWorker(s: Shared, s': Shared, j: Worker)
    requires s' == s.(workers := s'.workers)
    ensures WorkerOk(s', j) <==> WorkerOk(s, j)
  {
  }

  lemma SameRecords(s: Shared, s': Shared)
    requires s' == s.(workers := s'.workers)
    ensures LogOk(s') <==> LogOk(s)
    ensures RecordsOk(s') <==> RecordsOk(s)
  {
  }

  lemma SeesOk(s: Shared, j: Worker)
    requires RecordsOk(s) && WorkerOk(s, j)
    ensures j.HasRequest? ==> WorkerOk(s, SeeIntent(s, j.part, j.request)) && !Owns(SeeIntent(s, j.part, j.request))
    ensures j.SawIntent? ==>
      WorkerOk(s, SeeCompletion(s, j.part, j.request, j.intent)) && !Owns(SeeCompletion(s, j.part, j.request, j.intent))
  {
  }

  /** The provider takes a batch from the one worker that owns the part. */
  lemma ProviderKeeps(s: Shared, id: nat, a: Answer, j: Worker)
    requires MixInv(s) && id in s.workers && s.workers[id].AtProvider?
    requires var at := s.workers[id]; j == Stopped || j == HasAnswer(at.part, at.request, a)
    ensures var at := s.workers[id];
      MixInv(Moved(s.(log := s.log + [Submission(at.part, at.request, a)]), id, j))
  {
    var at := s.workers[id];
    var s' := Moved(s.(log := s.log + [Submission(at.part, at.request, a)]), id, j);
    assert WorkerOk(s, at);
    LogGrowsOk(s, s', Submission(at.part, at.request, a));
    hide LogOk, RecordsOk, MixInv, Logged;
    assert Submission(at.part, at.request, a) in s'.log;
    OwnerKeeps(s, s', id, j);
  }

  lemma LogGrowsOk(s: Shared, s': Shared, one: Submission)
    requires LogOk(s) && RecordsOk(s) && s'.log == s.log + [one] && s'.requests == s.requests
    requires s'.intents == s.intents && s'.completions == s.completions
    requires one.part in s.intents && Knows(s, one.part, one.request) && !Logged(s.log, one.part)
    ensures LogOk(s') && RecordsOk(s')
  {
  }

  lemma CreateIntentKeeps(s: Shared, id: nat, raw: Bytes)
    requires MixInv(s) && id in s.workers && s.workers[id].SawNothing? && s.workers[id].part !in s.intents
    ensures var (p, r) := (s.workers[id].part, s.workers[id].request);
      MixInv(Moved(s.(intents := s.intents[p := Claimed]), id, WritingIntent(p, r, raw)))
  {
    var (p, r) := (s.workers[id].part, s.workers[id].request);
    var s' := Moved(s.(intents := s.intents[p := Claimed]), id, WritingIntent(p, r, raw));
    assert WorkerOk(s, s.workers[id]);
    NoOwner(s, id, p);
    MoveKeeps(s, s', id, p, WritingIntent(p, r, raw));
  }

  lemma WriteIntentKeeps(s: Shared, id: nat)
    requires MixInv(s) && id in s.workers && s.workers[id].WritingIntent?
    ensures var (p, r, raw) := (s.workers[id].part, s.workers[id].request, s.workers[id].raw);
      MixInv(Moved(s.(intents := s.intents[p := Written(IntentRecord(r, raw))]), id, AtProvider(p, r)))
  {
    var (p, r, raw) := (s.workers[id].part, s.workers[id].request, s.workers[id].raw);
    var s' := Moved(s.(intents := s.intents[p := Written(IntentRecord(r, raw))]), id, AtProvider(p, r));
    assert WorkerOk(s, s.workers[id]);
    OwnerKeeps(s, s', id, AtProvider(p, r));
  }

  lemma CreateCompletionKeeps(s: Shared, id: nat, raw: Bytes)
    requires MixInv(s) && id in s.workers && s.workers[id].HasAnswer?
    ensures var (p, r, a) := (s.workers[id].part, s.workers[id].request, s.workers[id].answer);
      MixInv(Moved(s.(completions := s.completions[p := Claimed]), id, WritingCompletion(p, r, a, raw)))
  {
    var (p, r, a) := (s.workers[id].part, s.workers[id].request, s.workers[id].answer);
    var s' := Moved(s.(completions := s.completions[p := Claimed]), id, WritingCompletion(p, r, a, raw));
    assert WorkerOk(s, s.workers[id]);
    OwnerKeeps(s, s', id, WritingCompletion(p, r, a, raw));
  }

  lemma WriteCompletionKeeps(s: Shared, id: nat)
    requires MixInv(s) && id in s.workers && s.workers[id].WritingCompletion?
    ensures var (p, c) := (s.workers[id].part, Completion(s.workers[id].request, s.workers[id].answer, s.workers[id].raw));
      MixInv(Moved(s.(completions := s.completions[p := Written(c)]), id, Returned(p, c.answer)))
  {
    var (p, c) := (s.workers[id].part, Completion(s.workers[id].request, s.workers[id].answer, s.workers[id].raw));
    var s' := Moved(s.(completions := s.completions[p := Written(c)]), id, Returned(p, c.answer));
    assert WorkerOk(s, s.workers[id]);
    OwnerKeeps(s, s', id, Returned(p, c.answer));
  }

  lemma WorkerOf(s: Shared, id: nat)
    requires MixInv(s) && id in s.workers
    ensures WorkerOk(s, s.workers[id])
    ensures MixInv(Moved(s, id, Stopped))
  {
    LookKeeps(s, id, Stopped);
  }

  lemma LooksKeep(s: Shared, id: nat)
    requires MixInv(s) && id in s.workers
    ensures s.workers[id].HasRequest? ==> MixInv(Moved(s, id, SeeIntent(s, s.workers[id].part, s.workers[id].request)))
    ensures s.workers[id].SawIntent? ==>
      MixInv(Moved(s, id, SeeCompletion(s, s.workers[id].part, s.workers[id].request, s.workers[id].intent)))
  {
    hide WorkerOk, SeeIntent, SeeCompletion, Moved;
    var j := s.workers[id];
    WorkerOf(s, id);
    SeesOk(s, j);
    hide MixInv;
    if j.HasRequest? { LookKeeps(s, id, SeeIntent(s, j.part, j.request)); }
    if j.SawIntent? { LookKeeps(s, id, SeeCompletion(s, j.part, j.request, j.intent)); }
  }

  /** Every step of every worker keeps the invariant. */
  lemma TakeKeeps(s: Shared, id: nat, e: Step)
    requires MixInv(s)
    ensures MixInv(Take(s, id, e))
  {
    hide MixInv, WorkerOk, SeeIntent, SeeCompletion, NewIds, AnswerOk, Moved, Bounded;
    if id !in s.workers {
      if e.Begin? { BeginKeeps(s, id, e.part); }
    } else {
      WorkerOf(s, id);
      LooksKeep(s, id);
      match (s.workers[id], e) {
        case (Started(p), ReadRequest) => if p in s.requests { ReadKeeps(s, id, p); }
        case (SawNothing(p, r), CreateIntent(raw)) => if p !in s.intents { CreateIntentKeeps(s, id, raw); }
        case (WritingIntent(p, r, raw), WriteIntent) => WriteIntentKeeps(s, id);
        case (AtProvider(p, r), Answered(a)) => ProviderKeeps(s, id, a, if AnswerOk(a) then HasAnswer(p, r, a) else Stopped);
        case (AtProvider(p, r), CallFails(taken)) => if taken.Some? { ProviderKeeps(s, id, taken.value, Stopped); }
        case (HasAnswer(p, r, a), CreateCompletion(raw)) => CreateCompletionKeeps(s, id, raw);
        case (WritingCompletion(p, r, a, raw), WriteCompletion) => WriteCompletionKeeps(s, id);
        case _ =>
      }
    }
  }

  lemma BeginKeeps(s: Shared, id: nat, p: nat)
    requires MixInv(s)
    ensures MixInv(Moved(s, id, Started(p)))
  {
    LookKeeps(s, id, Started(p));
  }

  lemma ReadKeeps(s: Shared, id: nat, p: nat)
    requires MixInv(s) && p in s.requests
    ensures MixInv(Moved(s, id, HasRequest(p, s.requests[p])))
  {
    LookKeeps(s, id, HasRequest(p, s.requests[p]));
  }

  lemma TakeKeepsRequests(s: Shared, id: nat, e: Step)
    ensures Take(s, id, e).requests == s.requests
  {
  }

  lemma {:induction false} MixedKeeps(s: Shared, steps: seq<(nat, Step)>)
    requires MixInv(s)
    ensures MixInv(Mixed(s, steps)) && Mixed(s, steps).requests == s.requests
    decreases |steps|
  {
    hide MixInv, Take;
    if steps != [] {
      TakeKeeps(s, steps[0].0, steps[0].1);
      TakeKeepsRequests(s, steps[0].0, steps[0].1);
      MixedKeeps(Take(s, steps[0].0, steps[0].1), steps[1..]);
    }
  }

  /** However many workers run, for whatever parts, and however their steps are
      mixed: the provider takes at most one batch for a part, with the bytes
      that were prepared for it; no part is with two workers between its intent
      and its completed record; and every worker that comes back with a batch
      comes back with the provider's own. */
  lemma AtMostOneBatchWhateverTheOrder(s: Shared, steps: seq<(nat, Step)>)
    requires Fresh(s)
    ensures var s' := Mixed(s, steps);
      && (forall i :: 0 <= i < |s'.log| ==> Knows(s, s'.log[i].part, s'.log[i].request))
      && (forall i, j :: 0 <= i < j < |s'.log| ==> s'.log[i].part != s'.log[j].part)
      && OwnersDiffer(s'.workers)
      && (forall id :: id in s'.workers && s'.workers[id].Returned? ==>
            s'.workers[id].part in s.requests
            && Submission(s'.workers[id].part, s.requests[s'.workers[id].part], s'.workers[id].answer) in s'.log)
  {
    MixedKeeps(s, steps);
    var s' := Mixed(s, steps);
    forall id | id in s'.workers && s'.workers[id].Returned?
      ensures s'.workers[id].part in s.requests
      ensures Submission(s'.workers[id].part, s.requests[s'.workers[id].part], s'.workers[id].answer) in s'.log
    {
      assert WorkerOk(s', s'.workers[id]);
    }
  }

  /** Two workers that come back with a batch for one part come back with the
      same batch. */
  lemma WorkersAgree(s: Shared, steps: seq<(nat, Step)>, id: nat, id': nat)
    requires Fresh(s)
    requires var w := Mixed(s, steps).workers;
      id in w && id' in w && w[id].Returned? && w[id'].Returned? && w[id].part == w[id'].part
    ensures Mixed(s, steps).workers[id] == Mixed(s, steps).workers[id']
  {
    hide Mixed, Fresh;
    AtMostOneBatchWhateverTheOrder(s, steps);
  }

  // ------------------------------------------------ one worker on its own

  function WrittenAll<V>(m: map<nat, V>): map<nat, Slot<V>> { map p | p in m :: Written(m[p]) }

  function SharedOf(d: Disk, log: seq<Submission>): Shared {
    Shared(d.requests, WrittenAll(d.intents), WrittenAll(d.completions), log, map[])
  }

  /** What the machine's job is for the worker of one submission. */
  predicate Agrees(j: Worker, job: Job) {
    match job
    case Idle => j.Stopped?
    case Calling(p, r) => j == AtProvider(p, r)
    case Recording(one) => j == HasAnswer(one.part, one.request, one.answer)
    case SavingSubmitted(batch, input) => j.Returned? && j.answer.batch == batch && j.answer.input == input
    case _ => false
  }

  /** The same files and the same log, and one worker where the machine is. */
  predicate Alone(s: Shared, w: World) {
    s.(workers := map[]) == SharedOf(w.disk, w.log) && 0 in s.workers && Agrees(s.workers[0], w.job)
  }

  function After(s: Shared, j: Worker): Shared { s.(workers := map[0 := j]) }

  lemma MovedAlone(s: Shared, j: Worker, j': Worker)
    ensures s.workers == map[] ==> Moved(s, 0, j) == After(s, j)
    ensures Moved(After(s, j), 0, j') == After(s, j')
  {
  }

  lemma MixedTwo(s: Shared, a: Step, b: Step)
    ensures Mixed(s, [(0, a), (0, b)]) == Take(Take(s, 0, a), 0, b)
  {
    hide Take;
    assert [(0, a), (0, b)][1..] == [(0, b)] && [(0, b)][1..] == [];
    assert Mixed(Take(s, 0, a), [(0, b)]) == Mixed(Take(Take(s, 0, a), 0, b), []);
  }

  lemma MixedFour(s: Shared, a: Step, b: Step, c: Step, d: Step)
    ensures Mixed(s, [(0, a), (0, b), (0, c), (0, d)]) == Take(Take(Take(Take(s, 0, a), 0, b), 0, c), 0, d)
  {
    hide Take;
    assert [(0, a), (0, b), (0, c), (0, d)][1..] == [(0, b), (0, c), (0, d)] && [(0, b), (0, c), (0, d)][1..] == [(0, c), (0, d)];
    assert Mixed(s, [(0, a), (0, b), (0, c), (0, d)]) == Mixed(Take(s, 0, a), [(0, b), (0, c), (0, d)])
        == Mixed(Take(Take(s, 0, a), 0, b), [(0, c), (0, d)]);
    MixedTwo(Take(Take(s, 0, a), 0, b), c, d);
  }

  lemma {:induction false} MixedAppend(s: Shared, a: seq<(nat, Step)>, b: seq<(nat, Step)>)
    ensures Mixed(s, a + b) == Mixed(Mixed(s, a), b)
    decreases |a|
  {
    hide Take;
    if a == [] {
      assert a + b == b;
    } else {
      assert (a + b)[1..] == a[1..] + b;
      MixedAppend(Take(s, a[0].0, a[0].1), a[1..], b);
    }
  }

  function LookSteps(p: nat): seq<(nat, Step)> { [(0, Begin(p)), (0, ReadRequest), (0, ReadIntent), (0, ReadCompletion)] }

  function IntentSteps(raw: Bytes): seq<(nat, Step)> { [(0, CreateIntent(raw)), (0, WriteIntent)] }

  function CompletionSteps(raw: Bytes): seq<(nat, Step)> { [(0, CreateCompletion(raw)), (0, WriteCompletion)] }

  /** Where the reads leave a worker that nobody disturbs. */
  function Seen(s: Shared, p: nat): Worker {
    if p !in s.requests || !Bounded(s.requests[p]) then Stopped
    else match SeeIntent(s, p, s.requests[p])
      case SawIntent(_, r, intent) => SeeCompletion(s, p, r, intent)
      case _ => Stopped
  }

  lemma LooksAlone(s: Shared, p: nat)
    requires s.workers == map[]
    ensures Mixed(s, LookSteps(p)) == After(s, Seen(s, p))
  {
    MixedFour(s, Begin(p), ReadRequest, ReadIntent, ReadCompletion);
    hide Mixed, Bounded, Moved;
    MovedAlone(s, Started(p), Stopped);
    if p in s.requests && Bounded(s.requests[p]) {
      var r := s.requests[p];
      MovedAlone(s, Started(p), HasRequest(p, r));
      MovedAlone(s, HasRequest(p, r), SeeIntent(s, p, r));
      MovedAlone(s, SeeIntent(s, p, r), Seen(s, p));
    }
  }

  /** The fields of `After`, and how it meets an update. */
  lemma AfterFields(s: Shared, j: Worker, i: map<nat, Slot<IntentRecord>>, c: map<nat, Slot<Completion>>, log: seq<Submission>)
    ensures var t := After(s, j);
      && 0 in t.workers && t.workers[0] == j && t.intents == s.intents && t.completions == s.completions && t.log == s.log
      && t.(intents := i) == After(s.(intents := i), j)
      && t.(completions := c) == After(s.(completions := c), j)
      && t.(log := log) == After(s.(log := log), j)
  {
  }

  lemma WritesIntentAlone(s: Shared, j: Worker, raw: Bytes)
    requires !j.AtProvider? && !j.WritingIntent? && !j.WritingCompletion? && !j.HasAnswer?
    ensures Mixed(After(s, j), IntentSteps(raw)) ==
      if !j.SawNothing? then After(s, j)
      else if j.part in s.intents || !(0 < |raw| <= RECORD_MAX) then After(s, Stopped)
      else After(s.(intents := s.intents[j.part := Written(IntentRecord(j.request, raw))]), AtProvider(j.part, j.request))
  {
    hide Mixed, Moved, After, NewIds, SeeIntent, SeeCompletion;
    MixedTwo(After(s, j), CreateIntent(raw), WriteIntent);
    AfterFields(s, j, map[], map[], []);
    AfterFields(s, Stopped, map[], map[], []);
    if j.SawNothing? {
      var (p, r) := (j.part, j.request);
      MovedAlone(s, j, Stopped);
      if p !in s.intents && 0 < |raw| <= RECORD_MAX {
        var s1 := s.(intents := s.intents[p := Claimed]);
        var written := s.intents[p := Written(IntentRecord(r, raw))];
        AfterFields(s, j, s1.intents, map[], []);
        MovedAlone(s1, j, WritingIntent(p, r, raw));
        AfterFields(s1, WritingIntent(p, r, raw), written, map[], []);
        Overwritten<Slot<IntentRecord>>(s.intents, p, Claimed, Written(IntentRecord(r, raw)));
        MovedAlone(s.(intents := written), WritingIntent(p, r, raw), AtProvider(p, r));
      }
    }
  }

  lemma Overwritten<V>(m: map<nat, V>, p: nat, a: V, b: V)
    ensures m[p := a][p := b] == m[p := b]
  {
  }

  /** One submission that nobody disturbs is the one step the machine takes:
      the same files, the same log, and the worker where the machine is. */
  lemma AloneIsSubmit(w: World, raw: Bytes)
    requires w.job == Idle
    ensures var steps := LookSteps(w.state.adjudicationCompleted + 1) + IntentSteps(raw);
      Alone(Mixed(SharedOf(w.disk, w.log), steps), Submit(w, raw))
  {
    hide Mixed, LookSteps, IntentSteps, Bounded;
    var (s, p) := (SharedOf(w.disk, w.log), w.state.adjudicationCompleted + 1);
    MixedAppend(s, LookSteps(p), IntentSteps(raw));
    LooksAlone(s, p);
    WritesIntentAlone(s, Seen(s, p), raw);
    if p in w.disk.requests { WrittenInsert(w.disk.intents, p, IntentRecord(w.disk.requests[p], raw)); }
  }

  lemma WrittenInsert<V>(m: map<nat, V>, p: nat, v: V)
    ensures WrittenAll(m[p := v]) == WrittenAll(m)[p := Written(v)]
  {
  }

  lemma CompletionTaken(s: Shared, raw: Bytes)
    requires 0 in s.workers
    ensures s.workers[0].Stopped? ==> Take(s, 0, WriteCompletion) == s
    ensures s.workers[0].HasAnswer? ==>
      var (p, r, a) := (s.workers[0].part, s.workers[0].request, s.workers[0].answer);
      Take(s, 0, CreateCompletion(raw)) ==
      if p in s.completions || !(0 < |raw| <= RECORD_MAX) then Moved(s, 0, Stopped)
      else Moved(s.(completions := s.completions[p := Claimed]), 0, WritingCompletion(p, r, a, raw))
    ensures s.workers[0].WritingCompletion? ==>
      var (p, c) := (s.workers[0].part, Completion(s.workers[0].request, s.workers[0].answer, s.workers[0].raw));
      Take(s, 0, WriteCompletion) == Moved(s.(completions := s.completions[p := Written(c)]), 0, Returned(p, c.answer))
  {
    hide Moved;
  }

  lemma WritesCompletionAlone(s: Shared, j: Worker, raw: Bytes)
    requires j.HasAnswer?
    ensures Mixed(After(s, j), CompletionSteps(raw)) ==
      if j.part in s.completions || !(0 < |raw| <= RECORD_MAX) then After(s, Stopped)
      else
        var c := Completion(j.request, j.answer, raw);
        After(s.(completions := s.completions[j.part := Written(c)]), Returned(j.part, c.answer))
  {
    hide Mixed, Moved, After, Take;
    var (p, r, a) := (j.part, j.request, j.answer);
    MixedTwo(After(s, j), CreateCompletion(raw), WriteCompletion);
    AfterFields(s, j, map[], map[], []);
    AfterFields(s, Stopped, map[], map[], []);
    MovedAlone(s, j, Stopped);
    CompletionTaken(After(s, j), raw);
    CompletionTaken(After(s, Stopped), raw);
    if p !in s.completions && 0 < |raw| <= RECORD_MAX {
      var s1 := s.(completions := s.completions[p := Claimed]);
      var written := s.completions[p := Written(Completion(r, a, raw))];
      AfterFields(s, j, map[], s1.completions, []);
      MovedAlone(s1, j, WritingCompletion(p, r, a, raw));
      AfterFields(s1, WritingCompletion(p, r, a, raw), map[], written, []);
      CompletionTaken(After(s1, WritingCompletion(p, r, a, raw)), raw);
      Overwritten<Slot<Completion>>(s.completions, p, Claimed, Written(Completion(r, a, raw)));
      MovedAlone(s.(completions := written), WritingCompletion(p, r, a, raw), Returned(p, a));
    }
  }

  /** And so are the provider's answer, a failed call and the completed record. */
  lemma AloneIsTheMachine(w: World, j: Worker, a: Answer, taken: Option<Answer>, raw: Bytes)
    requires Agrees(j, w.job)
    ensures var s := After(SharedOf(w.disk, w.log), j);
      && (w.job.Calling? ==> Alone(Take(s, 0, Answered(a)), Accept(w, a)))
      && (w.job.Calling? ==> Alone(Take(s, 0, CallFails(taken)), Lose(w, taken)))
      && (w.job.Recording? && raw != [] ==> Alone(Mixed(s, CompletionSteps(raw)), Record(w, raw)))
  {
    hide NewIds, AnswerOk, Mixed, WrittenAll;
    if w.job.Recording? {
      var one := w.job.accepted;
      WritesCompletionAlone(SharedOf(w.disk, w.log), j, raw);
      WrittenKeys(w.disk.completions);
      WrittenInsert(w.disk.completions, one.part, Completion(one.request, one.answer, raw));
    }
  }

  lemma WrittenKeys<V>(m: map<nat, V>)
    ensures WrittenAll(m).Keys == m.Keys
  {
  }
}
