/** The directory of a run in its adjudication stage: what each file holds, the
    names it goes by, and whether the workers can read it. */
module RunDisk {
  import opened Names
  import opened RunState
  import opened Files
  import opened PrimaryProcessing
  import Subtitles

  /** What the provider answers to an accepted batch. */
  datatype Answer = Answer(batch: string, input: string, status: string)

  /** Journal records bind the exact bytes of their request; `raw` is the
      record as serialised. */
  datatype IntentRecord = IntentRecord(request: Bytes, raw: Bytes)
  datatype Completion = Completion(request: Bytes, answer: Answer, raw: Bytes)

  /** Adjudication files are kept by part number; `base` is everything earlier
      stages left, `stateFile` the state as serialised. */
  datatype Disk = Disk(
    base: Contents,
    stateFile: Bytes,
    requests: map<nat, Bytes>,
    intents: map<nat, IntentRecord>,
    completions: map<nat, Completion>,
    outputs: map<nat, Bytes>,
    errors: map<nat, Bytes>,
    terminal: Option<Bytes>)

  // ------------------------------------------------------------------ names

  function NamesOf(k: Kind, parts: set<nat>): set<string> {
    set p | p in parts :: PartName(Adjudication, p, k)
  }

  function BaseNames(d: Disk): set<string> { d.base.Keys + {RUN_STATE} }

  function DiskNames(d: Disk): set<string> {
    BaseNames(d) + NamesOf(Request, d.requests.Keys) + NamesOf(Intent, d.intents.Keys)
    + NamesOf(Completed, d.completions.Keys) + NamesOf(Output, d.outputs.Keys)
    + NamesOf(ApiErrors, d.errors.Keys) + (if d.terminal.Some? then {TERMINAL_ERRORS} else {})
  }

  // --------------------------------------------------------------- contents

  lemma NamesAreUnique(k: Kind)
    ensures forall p: nat, q: nat :: PartName(Adjudication, p, k) == PartName(Adjudication, q, k) ==> p == q
  {
    hide PartName;
    forall p: nat, q: nat | PartName(Adjudication, p, k) == PartName(Adjudication, q, k)
      ensures p == q
    {
      PartNamesInjective(Adjudication, p, k, Adjudication, q, k);
    }
  }

  /** Part files under their printed names. */
  ghost function Filed(k: Kind, m: map<nat, Bytes>): Contents {
    NamesAreUnique(k);
    map p | p in m :: PartName(Adjudication, p, k) := m[p]
  }

  ghost function IntentBytes(m: map<nat, IntentRecord>): map<nat, Bytes> { map p | p in m :: m[p].raw }

  ghost function CompletionBytes(m: map<nat, Completion>): map<nat, Bytes> { map p | p in m :: m[p].raw }

  ghost function TerminalFile(t: Option<Bytes>): Contents {
    if t.Some? then map[TERMINAL_ERRORS := t.value] else map[]
  }

  /** The directory as a worker reads it. */
  ghost function DiskFiles(d: Disk): Contents {
    d.base + Filed(Request, d.requests) + Filed(Intent, IntentBytes(d.intents))
    + Filed(Completed, CompletionBytes(d.completions)) + Filed(Output, d.outputs)
    + Filed(ApiErrors, d.errors) + TerminalFile(d.terminal) + map[RUN_STATE := d.stateFile]
  }

  lemma FiledNames(k: Kind, m: map<nat, Bytes>)
    ensures Filed(k, m).Keys == NamesOf(k, m.Keys)
  {
    hide PartName, Filed;
    forall n | n in Filed(k, m)
      ensures n in NamesOf(k, m.Keys)
    {
      var p := PartOf(k, m, n);
    }
    forall n | n in NamesOf(k, m.Keys)
      ensures n in Filed(k, m)
    {
      var p: nat :| p in m.Keys && n == PartName(Adjudication, p, k);
      FiledAt(k, m, p);
    }
  }

  lemma DiskFilesNames(d: Disk)
    ensures DiskFiles(d).Keys == DiskNames(d)
  {
    hide PartName, Filed, NamesOf, IntentBytes, CompletionBytes, TerminalFile, DiskFiles, DiskNames;
    RecordNames(d);
    FiledNames(Request, d.requests);
    FiledNames(Intent, IntentBytes(d.intents));
    FiledNames(Completed, CompletionBytes(d.completions));
    FiledNames(Output, d.outputs);
    FiledNames(ApiErrors, d.errors);
    FilesByGroup(d);
    EightKeys(d.base, Filed(Request, d.requests), Filed(Intent, IntentBytes(d.intents)),
              Filed(Completed, CompletionBytes(d.completions)), Filed(Output, d.outputs), Filed(ApiErrors, d.errors),
              TerminalFile(d.terminal), map[RUN_STATE := d.stateFile]);
  }

  lemma RecordNames(d: Disk)
    ensures IntentBytes(d.intents).Keys == d.intents.Keys && CompletionBytes(d.completions).Keys == d.completions.Keys
    ensures TerminalFile(d.terminal).Keys == if d.terminal.Some? then {TERMINAL_ERRORS} else {}
    ensures (map[RUN_STATE := d.stateFile]).Keys == {RUN_STATE}
  {
  }

  lemma FilesByGroup(d: Disk)
    ensures DiskFiles(d) == d.base + Filed(Request, d.requests) + Filed(Intent, IntentBytes(d.intents))
      + Filed(Completed, CompletionBytes(d.completions)) + Filed(Output, d.outputs)
      + Filed(ApiErrors, d.errors) + TerminalFile(d.terminal) + map[RUN_STATE := d.stateFile]
    ensures DiskNames(d) == (d.base.Keys + {RUN_STATE}) + NamesOf(Request, d.requests.Keys) + NamesOf(Intent, d.intents.Keys)
      + NamesOf(Completed, d.completions.Keys) + NamesOf(Output, d.outputs.Keys)
      + NamesOf(ApiErrors, d.errors.Keys) + (if d.terminal.Some? then {TERMINAL_ERRORS} else {})
  {
    hide PartName, Filed, NamesOf, IntentBytes, CompletionBytes, TerminalFile;
  }

  lemma EightKeys(b: Contents, r: Contents, i: Contents, c: Contents, o: Contents, e: Contents, t: Contents, s: Contents)
    ensures (b + r + i + c + o + e + t + s).Keys ==
            (b.Keys + s.Keys) + r.Keys + i.Keys + c.Keys + o.Keys + e.Keys + t.Keys
  {
    KeysOfUnion(b, r);
    KeysOfUnion(b + r, i);
    KeysOfUnion(b + r + i, c);
    KeysOfUnion(b + r + i + c, o);
    KeysOfUnion(b + r + i + c + o, e);
    KeysOfUnion(b + r + i + c + o + e, t);
    KeysOfUnion(b + r + i + c + o + e + t, s);
    LastFirst(b.Keys, r.Keys, i.Keys, c.Keys, o.Keys, e.Keys, t.Keys, s.Keys);
  }

  lemma KeysOfUnion(a: Contents, b: Contents)
    ensures (a + b).Keys == a.Keys + b.Keys
  {
  }

  lemma LastFirst(b: set<string>, r: set<string>, i: set<string>, c: set<string>, o: set<string>, e: set<string>,
                  t: set<string>, s: set<string>)
    ensures b + r + i + c + o + e + t + s == (b + s) + r + i + c + o + e + t
  {
  }

  // ---------------------------------------------------------------- reading

  /** Every submission and observation worker reads the whole directory:
      no file empty, none over its limit, all together under the total. */
  ghost predicate DiskReadable(d: Disk) { Readable(DiskFiles(d), Limit) }

  /** The workflow's reader of one request or output. */
  predicate Bounded(raw: Bytes) { 0 < |raw| <= REQUEST_MAX }

  predicate AnswerOk(a: Answer) {
    Subtitles.Trimmed(a.batch) && Subtitles.Trimmed(a.input) && Subtitles.Trimmed(a.status)
  }

  /** The batch states a recorded part may have when a later step reads it. */
  predicate KnownStatus(s: string) { s in {"validating", "completed", "failed"} }

  // ------------------------------------------------------------- accounting

  lemma {:induction false} FiledTotal(k: Kind, m: map<nat, Bytes>)
    ensures Total(Filed(k, m)) == Total(m)
    decreases |m|
  {
    hide PartName, Total, Filed;
    NothingWeighsNothing<string>();
    NothingWeighsNothing<nat>();
    FiledEmpty(k);
    if m != map[] {
      var p :| p in m;
      FiledRemove(k, m, p);
      TotalRemove(m, p);
      TotalRemove(Filed(k, m), PartName(Adjudication, p, k));
      FiledTotal(k, m - {p});
    }
  }

  lemma FiledEmpty(k: Kind)
    ensures Filed(k, map[]) == map[]
  {
  }

  lemma FiledRemove(k: Kind, m: map<nat, Bytes>, p: nat)
    requires p in m
    ensures PartName(Adjudication, p, k) in Filed(k, m)
    ensures Filed(k, m)[PartName(Adjudication, p, k)] == m[p]
    ensures Filed(k, m) - {PartName(Adjudication, p, k)} == Filed(k, m - {p})
  {
    hide PartName, Filed;
    var name := PartName(Adjudication, p, k);
    FiledAt(k, m, p);
    forall n | n in Filed(k, m) - {name}
      ensures n in Filed(k, m - {p}) && Filed(k, m)[n] == Filed(k, m - {p})[n]
    {
      var q := PartOf(k, m, n);
      FiledAt(k, m - {p}, q);
    }
    forall n | n in Filed(k, m - {p})
      ensures n in Filed(k, m) - {name}
    {
      var q := PartOf(k, m - {p}, n);
      FiledAt(k, m, q);
      if n == name { PartNamesInjective(Adjudication, p, k, Adjudication, q, k); }
    }
  }

  lemma FiledAt(k: Kind, m: map<nat, Bytes>, p: nat)
    requires p in m
    ensures PartName(Adjudication, p, k) in Filed(k, m) && Filed(k, m)[PartName(Adjudication, p, k)] == m[p]
  {
    hide PartName;
    NamesAreUnique(k);
  }

  lemma PartOf(k: Kind, m: map<nat, Bytes>, n: string) returns (p: nat)
    requires n in Filed(k, m)
    ensures p in m && n == PartName(Adjudication, p, k) && Filed(k, m)[n] == m[p]
  {
    hide PartName;
    NamesAreUnique(k);
    p :| p in m && n == PartName(Adjudication, p, k);
  }

  /** Every file non-empty and within the common limit. */
  predicate Sized<K(!new)>(m: map<K, Bytes>) { forall k :: k in m ==> 0 < |m[k]| <= FILE_MAX }

  ghost predicate AllSized(d: Disk) {
    && Sized(d.base) && Sized(d.requests) && Sized(IntentBytes(d.intents)) && Sized(CompletionBytes(d.completions))
    && Sized(d.outputs) && Sized(d.errors) && Sized(TerminalFile(d.terminal))
    && 0 < |d.stateFile| <= STATE_MAX
  }

  /** The bytes of everything but the state file. */
  ghost function Load(d: Disk): nat {
    Total(d.base) + Total(d.requests) + Total(IntentBytes(d.intents)) + Total(CompletionBytes(d.completions))
    + Total(d.outputs) + Total(d.errors) + Total(TerminalFile(d.terminal))
  }

  lemma SizedUnion(a: Contents, b: Contents)
    requires Sized(a) && Sized(b)
    ensures Sized(a + b)
  {
  }

  lemma SizedFiled(k: Kind, m: map<nat, Bytes>)
    requires Sized(m)
    ensures Sized(Filed(k, m))
  {
    hide PartName, Filed;
    forall n | n in Filed(k, m)
      ensures 0 < |Filed(k, m)[n]| <= FILE_MAX
    {
      var p := PartOf(k, m, n);
    }
  }

  /** Sizes add up: a directory of well-sized files that fit is readable. */
  lemma FittingDiskIsReadable(d: Disk)
    requires AllSized(d) && Load(d) + |d.stateFile| <= TOTAL_MAX
    ensures DiskReadable(d)
  {
    hide Filed, Total, IntentBytes, CompletionBytes, TerminalFile;
    var (r, i, c) := (Filed(Request, d.requests), Filed(Intent, IntentBytes(d.intents)), Filed(Completed, CompletionBytes(d.completions)));
    var (o, e, t) := (Filed(Output, d.outputs), Filed(ApiErrors, d.errors), TerminalFile(d.terminal));
    FiledSums(d);
    hide Sized;
    SizedFiled(Request, d.requests);
    SizedFiled(Intent, IntentBytes(d.intents));
    SizedFiled(Completed, CompletionBytes(d.completions));
    SizedFiled(Output, d.outputs);
    SizedFiled(ApiErrors, d.errors);
    SixUnions(d.base, r, i, c, o, e, t);
    WithState(d.base + r + i + c + o + e + t, d.stateFile);
  }

  lemma FiledSums(d: Disk)
    ensures Total(Filed(Request, d.requests)) == Total(d.requests)
    ensures Total(Filed(Intent, IntentBytes(d.intents))) == Total(IntentBytes(d.intents))
    ensures Total(Filed(Completed, CompletionBytes(d.completions))) == Total(CompletionBytes(d.completions))
    ensures Total(Filed(Output, d.outputs)) == Total(d.outputs)
    ensures Total(Filed(ApiErrors, d.errors)) == Total(d.errors)
  {
    FiledTotal(Request, d.requests);
    FiledTotal(Intent, IntentBytes(d.intents));
    FiledTotal(Completed, CompletionBytes(d.completions));
    FiledTotal(Output, d.outputs);
    FiledTotal(ApiErrors, d.errors);
  }

  lemma SixUnions(b: Contents, r: Contents, i: Contents, c: Contents, o: Contents, e: Contents, t: Contents)
    requires Sized(b) && Sized(r) && Sized(i) && Sized(c) && Sized(o) && Sized(e) && Sized(t)
    ensures Sized(b + r + i + c + o + e + t)
    ensures Total(b + r + i + c + o + e + t) <= Total(b) + Total(r) + Total(i) + Total(c) + Total(o) + Total(e) + Total(t)
  {
    hide Sized, Total;
    SizedUnion(b, r);
    SizedUnion(b + r, i);
    SizedUnion(b + r + i, c);
    SizedUnion(b + r + i + c, o);
    SizedUnion(b + r + i + c + o, e);
    SizedUnion(b + r + i + c + o + e, t);
    TotalUnion(b, r);
    TotalUnion(b + r, i);
    TotalUnion(b + r + i, c);
    TotalUnion(b + r + i + c, o);
    TotalUnion(b + r + i + c + o, e);
    TotalUnion(b + r + i + c + o + e, t);
  }

  lemma WithState(m: Contents, raw: Bytes)
    requires Sized(m) && 0 < |raw| <= STATE_MAX && Total(m) + |raw| <= TOTAL_MAX
    ensures Readable(m + map[RUN_STATE := raw], Limit)
  {
    hide Total;
    NothingWeighsNothing<string>();
    TotalUnion(m, map[RUN_STATE := raw]);
    TotalInsert<string>(map[], RUN_STATE, raw);
    assert map[][RUN_STATE := raw] == map[RUN_STATE := raw];
  }
}
