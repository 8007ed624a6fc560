/** How each worker sorts the files of a run directory into evidence groups.
    The rules were written separately in each worker; on the names a run can
    hold they put every file where the shape checks expect it. */
module Groups {
  import opened Names

  datatype Group = StateFile | Artifacts | Requests | Journals | Outputs | Derived

  predicate StartsWith(s: string, p: string) { p <= s }

  predicate EndsWith(s: string, t: string) {
    |t| <= |s| && s[|s| - |t|..] == t
  }

  predicate Contains(s: string, t: string) {
    exists i {:trigger s[i..]} :: 0 <= i <= |s| && StartsWith(s[i..], t)
  }

  /** The part of a relative path after its last slash. */
  function Leaf(path: string): string {
    if path == "" then "" else
    var front := Leaf(path[..|path| - 1]);
    if path[|path| - 1] == '/' then "" else front + [path[|path| - 1]]
  }

  predicate IsOutput(name: string) {
    EndsWith(name, "-output.jsonl") || EndsWith(name, "-api-errors.jsonl")
  }

  /** The primary-result worker. */
  function PrimaryWorkerGroup(name: string): Group {
    if name == RUN_STATE then StateFile
    else if StartsWith(name, ".primary-part-") then Journals
    else if StartsWith(name, "primary-part-") && IsOutput(name) then Outputs
    else if name in {CANDIDATES, SOURCE_MANIFEST}
         || (StartsWith(name, "primary-part-") && EndsWith(name, "-requests.jsonl")) then Artifacts
    else Derived
  }

  /** The four adjudication observers. */
  function ObserverGroup(name: string): Group {
    if name == RUN_STATE then StateFile
    else if StartsWith(name, ".") then Journals
    else if IsOutput(name) then Outputs
    else if EndsWith(name, "-requests.jsonl") || name in {CANDIDATES, SOURCE_MANIFEST} then Artifacts
    else Derived
  }

  /** The adjudication-result worker, which looks at the last path component. */
  function AdjudicationWorkerGroup(path: string): Group {
    var name := Leaf(path);
    if path == RUN_STATE then StateFile
    else if StartsWith(name, ".") && Contains(name, "-submission-") then Journals
    else if EndsWith(name, "-requests.jsonl") then Requests
    else if IsOutput(name) then Outputs
    else if name in {CANDIDATES, SOURCE_MANIFEST} then Artifacts
    else Derived
  }

  lemma {:induction false} LeafOfPlainName(name: string)
    requires '/' !in name
    ensures Leaf(name) == name
  {
    if name != "" {
      LeafOfPlainName(name[..|name| - 1]);
      assert name == name[..|name| - 1] + [name[|name| - 1]];
    }
  }

  lemma SameEnd(front: string, t: string, t': string, i: nat)
    requires EndsWith(front + t, t')
    requires 0 < i <= |t| && i <= |t'|
    ensures t[|t| - i] == t'[|t'| - i]
  {
    var name := front + t;
    assert name[|name| - |t'|..][|t'| - i] == name[|name| - i] == t[|t| - i];
  }

  lemma PartEnds(s: Stage, p: nat, k: Kind, k': Kind)
    ensures EndsWith(PartName(s, p, k), Suffix(k')) <==> k == k'
  {
    var front := Prefix(s, k) + Pad4(p);
    if k == k' {
      assert (front + Suffix(k))[|front|..] == Suffix(k);
    } else {
      if EndsWith(front + Suffix(k), Suffix(k')) { SuffixesDiffer(front, k, k'); }
    }
  }

  lemma SuffixesDiffer(front: string, k: Kind, k': Kind)
    requires EndsWith(front + Suffix(k), Suffix(k'))
    ensures k == k'
  {
    LastCharacters(k);
    LastCharacters(k');
    SameEnd(front, Suffix(k), Suffix(k'), 8);
    SameEnd(front, Suffix(k), Suffix(k'), 6);
    SameEnd(front, Suffix(k), Suffix(k'), 1);
  }

  lemma SameStart(s: string, t: string, p: string, i: nat)
    requires StartsWith(s + t, p)
    requires i < |s| && i < |p|
    ensures s[i] == p[i]
  {
    assert (s + t)[i] == p[i];
  }

  lemma PartHasNoSlash(s: Stage, p: nat, k: Kind)
    ensures '/' !in PartName(s, p, k)
  {
    FirstCharacters(s, k);
    LastCharacters(k);
    ValuePad4(p);
    NoSlashInDigits(Pad4(p));
  }

  lemma NoSlashInDigits(d: string)
    requires AllDigits(d)
    ensures '/' !in d
  {
  }

  lemma PartStarts(s: Stage, p: nat, k: Kind)
    ensures var name := PartName(s, p, k);
      && (StartsWith(name, "primary-part-") <==> s.Primary? && !IsJournal(k))
      && (StartsWith(name, ".primary-part-") <==> s.Primary? && IsJournal(k))
      && (StartsWith(name, ".") <==> IsJournal(k))
  {
    FirstCharacters(s, k);
    assert PartName(s, p, k) == Prefix(s, k) + (Pad4(p) + Suffix(k));
    PrefixStarts(s, k, Prefix(s, k), Pad4(p) + Suffix(k));
  }

  lemma StartsWithDot(x: string)
    ensures StartsWith(x, ".") <==> |x| >= 1 && x[0] == '.'
  {
    assert |x| >= 1 ==> x[..1] == [x[0]];
  }

  lemma PrefixStarts(s: Stage, k: Kind, pre: string, rest: string)
    requires pre == Prefix(s, k)
    requires |pre| >= 8 && (pre[0] == '.' <==> IsJournal(k))
    requires (if IsJournal(k) then pre[1] else pre[0]) == (match s case Primary => 'p' case Adjudication => 'a' case FinalReview => 'f')
    ensures StartsWith(pre + rest, "primary-part-") <==> s.Primary? && !IsJournal(k)
    ensures StartsWith(pre + rest, ".primary-part-") <==> s.Primary? && IsJournal(k)
    ensures StartsWith(pre + rest, ".") <==> IsJournal(k)
  {
    if StartsWith(pre + rest, "primary-part-") { SameStart(pre, rest, "primary-part-", 0); }
    if StartsWith(pre + rest, ".primary-part-") {
      SameStart(pre, rest, ".primary-part-", 0);
      SameStart(pre, rest, ".primary-part-", 1);
    }
    StartsWithDot(pre + rest);
    if s.Primary? { assert pre == if IsJournal(k) then ".primary-part-" else "primary-part-"; }
  }

  lemma JournalMentionsSubmission(s: Stage, p: nat, k: Kind)
    requires IsJournal(k)
    ensures Contains(PartName(s, p, k), "-submission-")
  {
    LastCharacters(k);
    var front := Prefix(s, k) + Pad4(p);
    assert PartName(s, p, k)[|front|..] == Suffix(k);
  }

  /** Every generated part name lands in the group each worker expects. */
  lemma PartGroups(s: Stage, p: nat, k: Kind)
    ensures PrimaryWorkerGroup(PartName(s, p, k)) ==
      (if !s.Primary? then Derived
       else match k case Request => Artifacts case Output => Outputs case ApiErrors => Outputs
                    case Intent => Journals case Completed => Journals)
    ensures ObserverGroup(PartName(s, p, k)) ==
      (match k case Request => Artifacts case Output => Outputs case ApiErrors => Outputs
               case Intent => Journals case Completed => Journals)
    ensures AdjudicationWorkerGroup(PartName(s, p, k)) ==
      (match k case Request => Requests case Output => Outputs case ApiErrors => Outputs
               case Intent => Journals case Completed => Journals)
  {
    var name := PartName(s, p, k);
    PartStarts(s, p, k);
    PartHasNoSlash(s, p, k);
    PartEnds(s, p, k, Request);
    PartEnds(s, p, k, Output);
    PartEnds(s, p, k, ApiErrors);
    LeafOfPlainName(name);
    if IsJournal(k) { JournalMentionsSubmission(s, p, k); }
    PartIsNotFixed(s, p, k);
  }

  predicate IsFixedName(name: string) {
    || name in {RUN_STATE, CANDIDATES, SOURCE_MANIFEST, TERMINAL_ERRORS, REVIEW_LEDGER, CALIBRATION}
    || name in PrimaryDerived()
    || name in AdjudicationDerived()
  }

  /** A character every part name has: the last letter of its word "part", or
      the dot of a journal. */
  predicate HasPartLandmark(n: string) {
    && |n| >= 17
    && match n[0]
       case '.' => true
       case 'p' => n[11] == 't'
       case 'a' => n[16] == 't'
       case 'f' => n[6] == 'r'
       case _ => false
  }

  lemma PartLandmark(s: Stage, p: nat, k: Kind)
    ensures HasPartLandmark(PartName(s, p, k))
  {
    LastCharacters(k);
    ValuePad4(p);
    assert PartName(s, p, k) == Prefix(s, k) + (Pad4(p) + Suffix(k));
    PrefixLandmark(s, k, Pad4(p) + Suffix(k));
  }

  lemma PrefixLandmark(s: Stage, k: Kind, rest: string)
    requires |rest| >= 12
    ensures HasPartLandmark(Prefix(s, k) + rest)
  {
    StageLandmark(s, k);
    hide Prefix;
  }

  lemma StageLandmark(s: Stage, k: Kind)
    ensures var p := Prefix(s, k);
      && |p| >= 13
      && (if IsJournal(k) then p[0] == '.'
          else match s
               case Primary => p[0] == 'p' && p[11] == 't'
               case Adjudication => |p| == 18 && p[0] == 'a' && p[16] == 't'
               case FinalReview => p[0] == 'f' && p[6] == 'r')
  {
  }

  lemma SingleNamesHaveNoLandmark(name: string)
    requires name in {RUN_STATE, CANDIDATES, SOURCE_MANIFEST, TERMINAL_ERRORS, REVIEW_LEDGER, CALIBRATION}
    ensures !HasPartLandmark(name)
  {
    assert name[0] in {'r', 'c', 's', 't'};
  }

  lemma DerivedNamesHaveNoLandmark(name: string)
    requires name in PrimaryDerived() || name in AdjudicationDerived()
    ensures !HasPartLandmark(name)
  {
    if name in PrimaryDerived() {
      assert name[0] == 'p' && name[11] != 't';
    } else if name == "final-decisions.jsonl" {
      assert name[0] == 'f' && name[6] == 'd';
    } else {
      assert name[0] == 'a' && name[16] != 't';
    }
  }

  /** No generated part name is one of the fixed names. */
  lemma PartIsNotFixed(s: Stage, p: nat, k: Kind)
    ensures !IsFixedName(PartName(s, p, k))
  {
    var name := PartName(s, p, k);
    PartLandmark(s, p, k);
    FixedNamesHaveNoLandmark(name);
  }

  lemma FixedNamesHaveNoLandmark(name: string)
    requires HasPartLandmark(name)
    ensures !IsFixedName(name)
  {
    hide HasPartLandmark;
    if name in {RUN_STATE, CANDIDATES, SOURCE_MANIFEST, TERMINAL_ERRORS, REVIEW_LEDGER, CALIBRATION} {
      SingleNamesHaveNoLandmark(name);
    } else if name in PrimaryDerived() || name in AdjudicationDerived() {
      DerivedNamesHaveNoLandmark(name);
    }
  }

  // ------------------------------------------------------------ fixed names

  lemma NotEndsWith(name: string, t: string, i: nat)
    requires 0 < i <= |name| && i <= |t|
    requires name[|name| - i] != t[|t| - i]
    ensures !EndsWith(name, t)
  {
    assert |t| <= |name| ==> name[|name| - |t|..][|t| - i] == name[|name| - i];
  }

  /** A plain name that ends like none of the part kinds. */
  predicate OrdinaryEnding(n: string) {
    && |n| >= 9 && n[0] != '.'
    && (n[|n| - 1] == 'n' || n[|n| - 8] == 'n' || n[|n| - 8] == 'e' || (n[|n| - 8] == 't' && n[|n| - 9] == 'c'))
  }

  lemma OrdinaryNamesHaveNoSuffix(n: string)
    requires OrdinaryEnding(n)
    ensures !IsOutput(n) && !EndsWith(n, "-requests.jsonl") && !StartsWith(n, ".") && !StartsWith(n, ".primary-part-")
  {
    var i := if n[|n| - 1] == 'n' then 1 else if n[|n| - 8] == 't' then 9 else 8;
    NotEndsWith(n, "-output.jsonl", if i == 9 then 8 else i);
    NotEndsWith(n, "-api-errors.jsonl", if i == 9 then 8 else i);
    NotEndsWith(n, "-requests.jsonl", i);
  }

  lemma OrdinaryGroups(n: string)
    requires OrdinaryEnding(n) && n != RUN_STATE && '/' !in n
    ensures var g := if n in {CANDIDATES, SOURCE_MANIFEST} then Artifacts else Derived;
      PrimaryWorkerGroup(n) == g && ObserverGroup(n) == g && AdjudicationWorkerGroup(n) == g
  {
    OrdinaryNamesHaveNoSuffix(n);
    LeafOfPlainName(n);
  }

  lemma PrimaryDerivedGroups(n: string)
    requires n in PrimaryDerived()
    ensures PrimaryWorkerGroup(n) == ObserverGroup(n) == AdjudicationWorkerGroup(n) == Derived
  {
    OrdinaryGroups(n);
  }

  lemma SourceGroups(n: string)
    requires n in {CANDIDATES, SOURCE_MANIFEST}
    ensures PrimaryWorkerGroup(n) == ObserverGroup(n) == AdjudicationWorkerGroup(n) == Artifacts
  {
    OrdinaryGroups(n);
  }
}
