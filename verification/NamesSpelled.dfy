/** The names of a run directory as they are spelled, the group each worker
    files them under, and the limits it holds them to. */
module NamesSpelled {
  import opened Names
  import opened Groups
  import opened RunState
  import opened Files
  import opened Inventories
  import opened PrimaryProcessing
  import opened HandOff
  import opened RunDisk

  // ---------------------------------------------------------------- numbers

  function Digits(a: nat, b: nat, c: nat, d: nat): string
    requires a < 10 && b < 10 && c < 10 && d < 10
  {
    ['0' + a as char, '0' + b as char, '0' + c as char, '0' + d as char]
  }

  lemma DigitSpelled(d: nat)
    requires d < 10
    ensures Digit(d) == '0' + d as char
  {
  }

  /** Four digits up to 9999, as many as it takes above. */
  lemma NumbersSpelled(a: nat, b: nat, c: nat, d: nat)
    requires a < 10 && b < 10 && c < 10 && d < 10
    ensures Pad4(1000 * a + 100 * b + 10 * c + d) == Digits(a, b, c, d)
    ensures Decimal(12345) == "12345" == Pad4(12345)
  {
    DigitSpelled(a);
    DigitSpelled(b);
    DigitSpelled(c);
    DigitSpelled(d);
    DigitSpelled(0);
    DigitsOf(a, b, c, d);
    FiveDigits();
    hide Digit, Decimal;
  }

  lemma DigitsOf(a: nat, b: nat, c: nat, d: nat)
    requires a < 10 && b < 10 && c < 10 && d < 10
    ensures Decimal(1000 * a + 100 * b + 10 * c + d) ==
      if a > 0 then [Digit(a), Digit(b), Digit(c), Digit(d)] else if b > 0 then [Digit(b), Digit(c), Digit(d)]
      else if c > 0 then [Digit(c), Digit(d)] else [Digit(d)]
  {
    hide Digit, Decimal;
    var n := 1000 * a + 100 * b + 10 * c + d;
    Appended(Digit(a), Digit(b), Digit(c), Digit(d));
    if a > 0 {
      OneDigit(a);
      LastDigitSpelled(a, b, 10 * a + b);
      LastDigitSpelled(10 * a + b, c, 100 * a + 10 * b + c);
      LastDigitSpelled(100 * a + 10 * b + c, d, n);
    } else if b > 0 {
      OneDigit(b);
      LastDigitSpelled(b, c, 10 * b + c);
      LastDigitSpelled(10 * b + c, d, n);
    } else if c > 0 {
      OneDigit(c);
      LastDigitSpelled(c, d, n);
    } else {
      OneDigit(n);
    }
  }

  lemma Appended(a: char, b: char, c: char, d: char)
    ensures [a] + [b] == [a, b] && [a, b] + [c] == [a, b, c] && [a, b, c] + [d] == [a, b, c, d]
    ensures [b] + [c] == [b, c] && [b, c] + [d] == [b, c, d] && [c] + [d] == [c, d]
  {
  }

  lemma LastDigitSpelled(front: nat, d: nat, n: nat)
    requires front > 0 && d < 10 && n == 10 * front + d
    ensures Decimal(n) == Decimal(front) + [Digit(d)]
  {
    DecimalAppends(front, d);
  }

  lemma FiveDigits()
    ensures Decimal(12345) == "12345"
  {
    DigitsOf(1, 2, 3, 4);
    DecimalAppends(1234, 5);
    hide Decimal;
  }

  // -------------------------------------------------------------- part names

  lemma FixedNamesSpelled()
    ensures RUN_STATE == "run-state.json" && CANDIDATES == "candidates.jsonl" && SOURCE_MANIFEST == "source-manifest.json"
    ensures TERMINAL_ERRORS == "terminal-api-errors.jsonl"
    ensures REVIEW_LEDGER == "review-ledger.json" && CALIBRATION == "calibration-sample.json"
    ensures forall n :: n in PrimaryDerived() <==>
      n == "primary-verdicts.jsonl" || n == "primary-parse-errors.json" || n == "primary-decisions.jsonl"
    ensures forall n :: n in AdjudicationDerived() <==>
      n == "adjudication-verdicts.jsonl" || n == "adjudication-parse-errors.json" || n == "final-decisions.jsonl"
  {
  }

  /** Every generated name, for every part number. */
  lemma PartNamesSpelled(p: nat)
    ensures PartName(Primary, p, Request) == "primary-part-" + Pad4(p) + "-requests.jsonl"
    ensures PartName(Primary, p, Output) == "primary-part-" + Pad4(p) + "-output.jsonl"
    ensures PartName(Primary, p, ApiErrors) == "primary-part-" + Pad4(p) + "-api-errors.jsonl"
    ensures PartName(Primary, p, Intent) == ".primary-part-" + Pad4(p) + "-submission-intent.json"
    ensures PartName(Primary, p, Completed) == ".primary-part-" + Pad4(p) + "-submission-completed.json"
    ensures PartName(Adjudication, p, Request) == "adjudication-part-" + Pad4(p) + "-requests.jsonl"
    ensures PartName(Adjudication, p, Output) == "adjudication-part-" + Pad4(p) + "-output.jsonl"
    ensures PartName(Adjudication, p, ApiErrors) == "adjudication-part-" + Pad4(p) + "-api-errors.jsonl"
    ensures PartName(Adjudication, p, Intent) == ".adjudication-part-" + Pad4(p) + "-submission-intent.json"
    ensures PartName(Adjudication, p, Completed) == ".adjudication-part-" + Pad4(p) + "-submission-completed.json"
    ensures PartName(FinalReview, p, Request) == "final-review-part-" + Pad4(p) + "-requests.jsonl"
  {
    hide Pad4;
    PrefixSpelled();
  }

  lemma PrefixSpelled()
    ensures Prefix(Primary, Request) == Prefix(Primary, Output) == Prefix(Primary, ApiErrors) == "primary-part-"
    ensures Prefix(Primary, Intent) == Prefix(Primary, Completed) == ".primary-part-"
    ensures Prefix(Adjudication, Request) == Prefix(Adjudication, Output) == Prefix(Adjudication, ApiErrors) == "adjudication-part-"
    ensures Prefix(Adjudication, Intent) == Prefix(Adjudication, Completed) == ".adjudication-part-"
    ensures Prefix(FinalReview, Request) == "final-review-part-"
  {
  }

  // -------------------------------------------------------------- inventories

  function SixNames(): set<string> {
    {"run-state.json", "candidates.jsonl", "source-manifest.json",
     "primary-verdicts.jsonl", "primary-parse-errors.json", "primary-decisions.jsonl"}
  }

  lemma SixAreFixed()
    ensures forall n :: n in SixNames() ==> IsFixedName(n)
    ensures SixNames() == {RUN_STATE, CANDIDATES, SOURCE_MANIFEST} + PrimaryDerived()
  {
  }

  /** The parts demanded of a run with `n` submitted and `k` observed
      adjudication parts, stage by stage and kind by kind. */
  lemma EvidenceParts(st: State, n: nat, k: nat, s: Stage, kind: Kind, p: nat)
    ensures PartName(s, p, kind) in Evidence(st, n, k).required <==>
      1 <= p <= (match s
                 case Primary => if kind == ApiErrors then 0 else st.primaryParts
                 case Adjudication =>
                   (match kind case Request => st.adjudicationParts case Output => k case ApiErrors => 0
                               case Intent => n case Completed => n)
                 case FinalReview => 0)
    ensures PartName(s, p, kind) in Evidence(st, n, k).optional <==>
      kind == ApiErrors && 1 <= p <= (match s case Primary => st.primaryParts case Adjudication => k case FinalReview => 0)
  {
    hide PartName, Parts, IsFixedName, PrimaryDerived;
    PartIsNotFixed(s, p, kind);
    FixedHere(PartName(s, p, kind));
    PrimaryPart(st, s, kind, p);
    InParts(s, p, kind, Adjudication, Request, 1, st.adjudicationParts);
    InParts(s, p, kind, Adjudication, Intent, 1, n);
    InParts(s, p, kind, Adjudication, Completed, 1, n);
    InParts(s, p, kind, Adjudication, Output, 1, k);
    InParts(s, p, kind, Adjudication, ApiErrors, 1, k);
  }

  lemma FixedHere(x: string)
    ensures !IsFixedName(x) ==> x !in {RUN_STATE, CANDIDATES, SOURCE_MANIFEST} + PrimaryDerived()
  {
  }

  lemma PrimaryPart(st: State, s: Stage, kind: Kind, p: nat)
    ensures PartName(s, p, kind) in PrimaryFiles(st) <==> s == Primary && kind != ApiErrors && 1 <= p <= st.primaryParts
    ensures PartName(s, p, kind) in PrimaryErrors(st) <==> s == Primary && kind == ApiErrors && 1 <= p <= st.primaryParts
  {
    hide PartName, Parts, IsFixedName, PrimaryDerived;
    PartIsNotFixed(s, p, kind);
    FixedHere(PartName(s, p, kind));
    InParts(s, p, kind, Primary, Request, 1, st.primaryParts);
    InParts(s, p, kind, Primary, Intent, 1, st.primaryParts);
    InParts(s, p, kind, Primary, Completed, 1, st.primaryParts);
    InParts(s, p, kind, Primary, Output, 1, st.primaryParts);
    InParts(s, p, kind, Primary, ApiErrors, 1, st.primaryParts);
  }

  /** And nothing else but the six fixed names. */
  lemma EvidenceNames(st: State, n: nat, k: nat, x: string)
    ensures x in SixNames() ==> x in Evidence(st, n, k).required && x !in Evidence(st, n, k).optional
    ensures x in Evidence(st, n, k).required + Evidence(st, n, k).optional ==>
      x in SixNames() || exists s, kind, p: nat :: x == PartName(s, p, kind)
  {
    hide PartName, IsFixedName, PrimaryDerived, SixNames;
    SixAreFixed();
    if x in SixNames() {
      forall s, kind, p: nat
        ensures x != PartName(s, p, kind)
      {
        PartIsNotFixed(s, p, kind);
      }
    }
  }

  /** The primary observer's names while part `target` is outstanding. */
  lemma PrimaryObserverParts(st: State, target: nat, s: Stage, kind: Kind, p: nat)
    requires target >= 1
    ensures PartName(s, p, kind) in PrimaryObserver(st, target).required <==>
      s == Primary && 1 <= p <= (match kind case Request => st.primaryParts case Intent => target case Completed => target
                                            case Output => target - 1 case ApiErrors => 0)
    ensures PartName(s, p, kind) in PrimaryObserver(st, target).optional <==> s == Primary && kind == ApiErrors && 1 <= p < target
  {
    hide PartName, Parts, IsFixedName, PrimaryDerived;
    PartIsNotFixed(s, p, kind);
    FixedHere(PartName(s, p, kind));
    InParts(s, p, kind, Primary, Request, 1, st.primaryParts);
    InParts(s, p, kind, Primary, Intent, 1, target);
    InParts(s, p, kind, Primary, Completed, 1, target);
    InParts(s, p, kind, Primary, Output, 1, target - 1);
    InParts(s, p, kind, Primary, ApiErrors, 1, target - 1);
  }

  lemma PrimaryObserverNames(st: State, target: nat, x: string)
    ensures x in {"run-state.json", "candidates.jsonl", "source-manifest.json"} ==> x in PrimaryObserver(st, target).required
    ensures x in PrimaryObserver(st, target).required + PrimaryObserver(st, target).optional ==>
      || x in {"run-state.json", "candidates.jsonl", "source-manifest.json"}
      || exists s, kind, p: nat :: x == PartName(s, p, kind)
  {
    hide PartName;
  }

  // ----------------------------------------------------------------- groups

  predicate Ends(n: string, t: string) { |n| >= |t| && n[|n| - |t|..] == t }

  predicate Begins(n: string, t: string) { |n| >= |t| && n[..|t|] == t }

  lemma BeginsIs(n: string, t: string)
    ensures StartsWith(n, t) <==> Begins(n, t)
  {
    if Begins(n, t) { assert n == n[..|t|] + n[|t|..]; }
  }

  /** The primary-result worker's rule, for every name. */
  lemma PrimaryGroupExactly(n: string)
    ensures PrimaryWorkerGroup(n) ==
      if n == "run-state.json" then StateFile
      else if Begins(n, ".primary-part-") then Journals
      else if Begins(n, "primary-part-") && (Ends(n, "-output.jsonl") || Ends(n, "-api-errors.jsonl")) then Outputs
      else if n == "candidates.jsonl" || n == "source-manifest.json"
           || (Begins(n, "primary-part-") && Ends(n, "-requests.jsonl")) then Artifacts
      else Derived
  {
    BeginsIs(n, ".primary-part-");
    BeginsIs(n, "primary-part-");
    hide StartsWith, Begins;
  }

  /** The adjudication-result worker's rule, for every path: it looks behind
      the last slash. */
  lemma AdjudicationGroupExactly(n: string, front: string)
    requires '/' !in n && (front == "" || front[|front| - 1] == '/')
    ensures AdjudicationWorkerGroup(front + n) ==
      if front == "" && n == "run-state.json" then StateFile
      else if Begins(n, ".") && (exists i {:trigger n[i..]} :: 0 <= i <= |n| && Begins(n[i..], "-submission-")) then Journals
      else if Ends(n, "-requests.jsonl") then Requests
      else if Ends(n, "-output.jsonl") || Ends(n, "-api-errors.jsonl") then Outputs
      else if n == "candidates.jsonl" || n == "source-manifest.json" then Artifacts
      else Derived
  {
    LeafBehindSlash(front, n);
    BeginsIs(n, ".");
    forall i | 0 <= i <= |n|
      ensures StartsWith(n[i..], "-submission-") <==> Begins(n[i..], "-submission-")
    {
      BeginsIs(n[i..], "-submission-");
    }
    NotTheState(front, n);
    hide StartsWith, Begins, Leaf;
  }

  lemma {:induction false} LeafBehindSlash(front: string, n: string)
    requires '/' !in n && (front == "" || front[|front| - 1] == '/')
    ensures Leaf(front + n) == n
    decreases |n|
  {
    if n == "" {
      assert front + n == front;
    } else {
      assert (front + n)[..|front + n| - 1] == front + n[..|n| - 1];
      LeafBehindSlash(front, n[..|n| - 1]);
      assert n == n[..|n| - 1] + [n[|n| - 1]];
    }
  }

  lemma NotTheState(front: string, n: string)
    requires '/' !in n && (front == "" || front[|front| - 1] == '/')
    ensures front + n == RUN_STATE <==> front == "" && n == "run-state.json"
  {
    assert "" + n == n;
    if front != "" { SlashInside(front, n); }
    StateHasNoSlash();
  }

  lemma SlashInside(front: string, n: string)
    requires front != "" && front[|front| - 1] == '/'
    ensures '/' in front + n
  {
    assert (front + n)[|front| - 1] == '/';
  }

  lemma StateHasNoSlash()
    ensures '/' !in RUN_STATE
  {
  }

  // ----------------------------------------------------------------- limits

  /** A directory a worker reads: nothing empty, the state within 64 KiB, any
      other file within 64 MiB, all of it within 256 MiB. */
  lemma LimitsSpelled(files: Contents, raw: Bytes)
    ensures Readable(files, Limit) <==>
      && "run-state.json" in files && 0 < |files["run-state.json"]| <= 65_536
      && (forall n :: n in files && n != "run-state.json" ==> 0 < |files[n]| <= 67_108_864)
      && Total(files) <= 268_435_456
    ensures Bounded(raw) <==> 0 < |raw| <= 33_554_432
    ensures RECORD_MAX == 4_096
  {
    hide Total;
  }

  /** Sizes add up: nothing weighs nothing, one file more adds its own size. */
  lemma TotalSpelled(files: Contents, name: string, raw: Bytes)
    ensures Total<string>(map[]) == 0
    ensures name !in files ==> Total(files[name := raw]) == Total(files) + |raw|
    ensures name in files ==> Total(files[name := raw]) == Total(files) - |files[name]| + |raw|
  {
    NothingWeighsNothing<string>();
    if name !in files {
      TotalInsert(files, name, raw);
    } else {
      TotalRemove(files, name);
      TotalRemove(files[name := raw], name);
      assert files[name := raw] - {name} == files - {name};
    }
  }
}
