/** The chain of inventories from the last primary part to the end of
    adjudication. */
module Chain {
  import opened Names
  import opened Groups
  import opened RunState
  import opened Inventories
  import opened PrimaryProcessing
  import opened AdjudicationProcessing
  import opened HandOff

  // ------------------------------------------------- observers, normal forms

  lemma Shuffle(rs: set<string>, cs: set<string>, pr: set<string>, pi: set<string>, pc: set<string>,
                po: set<string>, ar: set<string>, ai: set<string>, ac: set<string>, pd: set<string>, ao: set<string>)
    ensures (cs + rs) + pr + pi + pc + po + ar + ai + ac + pd + ao
         == (rs + (cs + pr) + (pi + pc) + po) + (pd + ar) + (ai + ac + ao)
    ensures (cs + rs) + pr + po + ao + pi + pc + ar + ai + ac + pd
         == (rs + (cs + pr) + (pi + pc) + po) + (pd + ar) + (ai + ac + ao)
    ensures (cs + rs) + pr + pi + pc + po + ar + (ai + ac) + pd + ao
         == (rs + (cs + pr) + (pi + pc) + po) + (pd + ar) + (ai + ac + ao)
    ensures (cs + rs) + pr + pi + pc + po == rs + (cs + pr) + (pi + pc) + po
  {
  }

  lemma SourcesSplit()
    ensures Sources() == {CANDIDATES, SOURCE_MANIFEST} + {RUN_STATE}
  {
  }

  lemma ShuffleFor(st: State, journals: int, outputs: int)
    ensures
      var n := st.primaryParts;
      var (pr, pi, pc, po) := (Parts(Primary, Request, 1, n), Parts(Primary, Intent, 1, n),
                               Parts(Primary, Completed, 1, n), Parts(Primary, Output, 1, n));
      var ar := Parts(Adjudication, Request, 1, st.adjudicationParts);
      var (ai, ac, ao) := (Parts(Adjudication, Intent, 1, journals), Parts(Adjudication, Completed, 1, journals),
                           Parts(Adjudication, Output, 1, outputs));
      && Sources() + pr + pi + pc + po + ar + ai + ac + PrimaryDerived() + ao == Evidence(st, journals, outputs).required
      && Sources() + pr + po + ao + pi + pc + ar + ai + ac + PrimaryDerived() == Evidence(st, journals, outputs).required
      && Sources() + pr + pi + pc + po + ar + (ai + ac) + PrimaryDerived() + ao == Evidence(st, journals, outputs).required
      && Sources() + pr + pi + pc + po == PrimaryFiles(st)
  {
    var n := st.primaryParts;
    SourcesSplit();
    Shuffle({RUN_STATE}, {CANDIDATES, SOURCE_MANIFEST},
            Parts(Primary, Request, 1, n), Parts(Primary, Intent, 1, n), Parts(Primary, Completed, 1, n),
            Parts(Primary, Output, 1, n), Parts(Adjudication, Request, 1, st.adjudicationParts),
            Parts(Adjudication, Intent, 1, journals), Parts(Adjudication, Completed, 1, journals), PrimaryDerived(),
            Parts(Adjudication, Output, 1, outputs));
  }

  lemma OnePart(s: Stage, k: Kind)
    ensures Parts(s, k, 1, 0) == {} && Parts(s, k, 1, 1) == {PartName(s, 1, k)}
  {
    assert PartName(s, 1, k) in Parts(s, k, 1, 1);
  }

  lemma NextPart(s: Stage, k: Kind, n: nat)
    ensures Parts(s, k, 1, n + 1) == Parts(s, k, 1, n) + {PartName(s, n + 1, k)}
  {
    hide PartName;
    var (old_, new_, name) := (Parts(s, k, 1, n), Parts(s, k, 1, n + 1), PartName(s, n + 1, k));
    forall x | x in new_
      ensures x in old_ || x == name
    {
      var p: nat :| 1 <= p <= n + 1 && x == PartName(s, p, k);
    }
    assert name in new_ && old_ <= new_;
  }

  /** The generic observer, submitted and completed. */
  lemma NextObserverIsEvidence(st: State)
    ensures st.status == AdjudicationSubmitted ==>
      NextObserver(st) == Evidence(st, st.adjudicationCompleted + 1, st.adjudicationCompleted)
    ensures st.status == AdjudicationPartCompleted ==>
      NextObserver(st) == Evidence(st, st.adjudicationCompleted, st.adjudicationCompleted)
  {
    if st.status == AdjudicationSubmitted { NextObserverWith(st, st.adjudicationCompleted + 1); }
    if st.status == AdjudicationPartCompleted { NextObserverWith(st, st.adjudicationCompleted); }
  }

  lemma NextObserverWith(st: State, journals: int)
    requires st.status != Failed
    requires journals == if st.status == AdjudicationSubmitted then st.adjudicationCompleted + 1 else st.adjudicationCompleted
    ensures NextObserver(st) == Evidence(st, journals, st.adjudicationCompleted)
  {
    ShuffleFor(st, journals, st.adjudicationCompleted);
    MiddleEmpty(PrimaryErrors(st), Parts(Adjudication, ApiErrors, 1, st.adjudicationCompleted));
  }

  lemma MiddleEmpty(a: set<string>, b: set<string>)
    ensures a + {} + b == a + b && a + {} == a
  {
  }

  /** The first observer was written with its part number spelled out; it asks
      for what the generic one asks for at the first part. */
  lemma FirstObserverIsEvidence(st: State)
    ensures FirstObserver(st, false) == Evidence(st, 1, 0)
    ensures FirstObserver(st, true) == Evidence(st, 1, 1)
  {
    forall k { OnePart(Adjudication, k); }
    ShuffleFor(st, 1, 0);
    ShuffleFor(st, 1, 1);
    Pair(PartName(Adjudication, 1, Intent), PartName(Adjudication, 1, Completed));
  }

  lemma Pair(a: string, b: string)
    ensures {a, b} == {a} + {b}
  {
  }

  lemma FirstIsNext(st: State)
    requires (st.status == AdjudicationSubmitted && st.adjudicationCompleted == 0)
          || (st.status == AdjudicationPartCompleted && st.adjudicationCompleted == 1)
    ensures FirstObserver(st, st.status == AdjudicationPartCompleted) == NextObserver(st)
  {
    hide FirstObserver, NextObserver, Evidence;
    FirstObserverIsEvidence(st);
    NextObserverIsEvidence(st);
  }

  // ------------------------------------------------------------------ links

  /** Adding fresh evidence to an accepted directory, and only that, makes it
      acceptable to a worker that demands the same plus that evidence. */
  lemma Grow(i: Interval, i': Interval, names: set<string>, a: set<string>, b: set<string>, e: set<string>)
    requires i'.required == i.required + a && i'.optional == i.optional + b
    requires e <= b && names !! a + b && i.required + i.optional !! a + b
    ensures i.Accepts(names) <==> i'.Accepts(names + a + e)
  {
    if i'.Accepts(names + a + e) {
      assert forall n :: n in i.required ==> n in names;
      assert forall n :: n in names ==> n in i.required + i.optional;
    }
  }

  lemma Regroup(base: set<string>, ai: set<string>, ac: set<string>, ao: set<string>,
                x: set<string>, y: set<string>)
    ensures base + (ai + ac + (ao + x)) == base + (ai + ac + ao) + x
    ensures base + ((ai + x) + (ac + y) + ao) == base + (ai + ac + ao) + (x + y)
    ensures base + (ao + x) == base + ao + x
    ensures base + (ai + ac + ao) + {} == base + (ai + ac + ao)
  {
  }

  lemma FreshName(st: State, journals: nat, outputs: nat, p: nat, k: Kind)
    requires (IsJournal(k) && p > journals) || (k in {Output, ApiErrors} && p > outputs)
    ensures PartName(Adjudication, p, k) !in Evidence(st, journals, outputs).required
    ensures PartName(Adjudication, p, k) !in Evidence(st, journals, outputs).optional
  {
    hide PartName, Parts, PrimaryFiles, PrimaryErrors;
    NotPrimary(st, p, k);
    PartIsNotFixed(Adjudication, p, k);
    InParts(Adjudication, p, k, Adjudication, Request, 1, st.adjudicationParts);
    InParts(Adjudication, p, k, Adjudication, Intent, 1, journals);
    InParts(Adjudication, p, k, Adjudication, Completed, 1, journals);
    InParts(Adjudication, p, k, Adjudication, Output, 1, outputs);
    InParts(Adjudication, p, k, Adjudication, ApiErrors, 1, outputs);
  }

  lemma NotPrimary(st: State, p: nat, k: Kind)
    ensures PartName(Adjudication, p, k) !in PrimaryFiles(st) + PrimaryErrors(st)
  {
    hide PartName, Parts;
    var n := st.primaryParts;
    PartIsNotFixed(Adjudication, p, k);
    InParts(Adjudication, p, k, Primary, Request, 1, n);
    InParts(Adjudication, p, k, Primary, Intent, 1, n);
    InParts(Adjudication, p, k, Primary, Completed, 1, n);
    InParts(Adjudication, p, k, Primary, Output, 1, n);
    InParts(Adjudication, p, k, Primary, ApiErrors, 1, n);
  }

  /** Observing part k + 1 adds its output, and perhaps its error file. */
  lemma ObservingLinks(st: State, k: nat, names: set<string>, e: set<string>)
    requires PartName(Adjudication, k + 1, Output) !in names && PartName(Adjudication, k + 1, ApiErrors) !in names
    requires e <= {PartName(Adjudication, k + 1, ApiErrors)}
    ensures Evidence(st, k + 1, k).Accepts(names) <==>
            Evidence(st, k + 1, k + 1).Accepts(names + {PartName(Adjudication, k + 1, Output)} + e)
  {
    hide PartName, Parts, PrimaryFiles, PreparedDerived, PrimaryErrors;
    var (x, y) := (PartName(Adjudication, k + 1, Output), PartName(Adjudication, k + 1, ApiErrors));
    NextPart(Adjudication, Output, k);
    NextPart(Adjudication, ApiErrors, k);
    FreshName(st, k + 1, k, k + 1, Output);
    FreshName(st, k + 1, k, k + 1, ApiErrors);
    Regroup(PrimaryFiles(st) + PreparedDerived(st), Parts(Adjudication, Intent, 1, k + 1),
            Parts(Adjudication, Completed, 1, k + 1), Parts(Adjudication, Output, 1, k), {x}, {});
    Regroup(PrimaryErrors(st), {}, {}, Parts(Adjudication, ApiErrors, 1, k), {y}, {});
    Grow(Evidence(st, k + 1, k), Evidence(st, k + 1, k + 1), names, {x}, {y}, e);
  }

  /** Submitting part k + 1 adds its two journal records. */
  lemma SubmittingLinks(st: State, k: nat, names: set<string>)
    requires PartName(Adjudication, k + 1, Intent) !in names && PartName(Adjudication, k + 1, Completed) !in names
    ensures Evidence(st, k, k).Accepts(names) <==>
            Evidence(st, k + 1, k).Accepts(names + {PartName(Adjudication, k + 1, Intent), PartName(Adjudication, k + 1, Completed)})
  {
    hide PartName, Parts, PrimaryFiles, PreparedDerived, PrimaryErrors;
    var (x, y) := (PartName(Adjudication, k + 1, Intent), PartName(Adjudication, k + 1, Completed));
    NextPart(Adjudication, Intent, k);
    NextPart(Adjudication, Completed, k);
    FreshName(st, k, k, k + 1, Intent);
    FreshName(st, k, k, k + 1, Completed);
    Pair(x, y);
    Regroup(PrimaryFiles(st) + PreparedDerived(st), Parts(Adjudication, Intent, 1, k),
            Parts(Adjudication, Completed, 1, k), Parts(Adjudication, Output, 1, k), {x}, {y});
    MiddleEmpty(names + {x, y}, {});
    MiddleEmpty(Evidence(st, k, k).optional, {});
    Grow(Evidence(st, k, k), Evidence(st, k + 1, k), names, {x, y}, {}, {});
  }

  /** Observing the last primary part completes the primary-result worker's
      input: with the last output, and perhaps its error file, the directory
      is an input with nothing derived exactly when the observer accepted it
      without. */
  lemma LastPrimaryPartLinks(st: State, names: set<string>, e: set<string>)
    requires st.status == PrimaryPartCompleted && st.primaryParts >= 1
    requires PartName(Primary, st.primaryParts, Output) !in names && PartName(Primary, st.primaryParts, ApiErrors) !in names
    requires e <= {PartName(Primary, st.primaryParts, ApiErrors)}
    ensures var final := names + {PartName(Primary, st.primaryParts, Output)} + e;
      PrimaryObserver(st, st.primaryParts).Accepts(names) <==>
      PrimaryInput(final, st) && Select(final, PrimaryWorkerGroup, Derived) == {}
  {
    hide PrimaryObserver, PrimaryInput, PrimaryFiles, PrimaryErrors, PartName, PrimaryWorkerGroup;
    var final := names + {PartName(Primary, st.primaryParts, Output)} + e;
    LastPrimaryPartInterval(st, names, e);
    if Within(final, PrimaryFiles(st), PrimaryErrors(st)) { NothingDerived(final, st); }
    if Select(final, PrimaryWorkerGroup, Derived) == {} { FreshInputIsInterval(final, st); }
  }

  lemma NothingDerived(names: set<string>, st: State)
    requires Within(names, PrimaryFiles(st), PrimaryErrors(st))
    ensures Select(names, PrimaryWorkerGroup, Derived) == {}
  {
    PrimaryPieces(st);
    RulesKeepStateApart();
    hide ExpectedArtifacts, ExpectedJournals, Parts, PrimaryWorkerGroup;
    forall n | n in names
      ensures PrimaryWorkerGroup(n) != Derived
    {
      assert n == RUN_STATE || n in ExpectedArtifacts(st) || n in ExpectedJournals(st)
             || n in Parts(Primary, Output, 1, st.primaryParts) || n in Parts(Primary, ApiErrors, 1, st.primaryParts);
    }
  }

  /** The same as one interval. */
  lemma LastPrimaryPartInterval(st: State, names: set<string>, e: set<string>)
    requires st.primaryParts >= 1
    requires PartName(Primary, st.primaryParts, Output) !in names && PartName(Primary, st.primaryParts, ApiErrors) !in names
    requires e <= {PartName(Primary, st.primaryParts, ApiErrors)}
    ensures PrimaryObserver(st, st.primaryParts).Accepts(names) <==>
            Within(names + {PartName(Primary, st.primaryParts, Output)} + e, PrimaryFiles(st), PrimaryErrors(st))
  {
    var n := st.primaryParts;
    LastPartForms(st);
    FreshPrimary(st, Output);
    FreshPrimary(st, ApiErrors);
    Grow(PrimaryObserver(st, n), Interval(PrimaryFiles(st), PrimaryErrors(st)), names,
         {PartName(Primary, n, Output)}, {PartName(Primary, n, ApiErrors)}, e);
  }

  lemma LastPartForms(st: State)
    requires st.primaryParts >= 1
    ensures PrimaryFiles(st) == PrimaryObserver(st, st.primaryParts).required + {PartName(Primary, st.primaryParts, Output)}
    ensures PrimaryErrors(st) == PrimaryObserver(st, st.primaryParts).optional + {PartName(Primary, st.primaryParts, ApiErrors)}
  {
    var n := st.primaryParts;
    NextPart(Primary, Output, n - 1);
    NextPart(Primary, ApiErrors, n - 1);
    ShuffleFor(st, 0, 0);
    Regroup(Sources() + Parts(Primary, Request, 1, n) + Parts(Primary, Intent, 1, n) + Parts(Primary, Completed, 1, n),
            {}, {}, Parts(Primary, Output, 1, n - 1), {PartName(Primary, n, Output)}, {});
  }

  lemma FreshPrimary(st: State, k: Kind)
    requires st.primaryParts >= 1 && k in {Output, ApiErrors}
    ensures PartName(Primary, st.primaryParts, k) !in PrimaryObserver(st, st.primaryParts).required
    ensures PartName(Primary, st.primaryParts, k) !in PrimaryObserver(st, st.primaryParts).optional
  {
    var n := st.primaryParts;
    PartIsNotFixed(Primary, n, k);
    InParts(Primary, n, k, Primary, Request, 1, n);
    InParts(Primary, n, k, Primary, Intent, 1, n);
    InParts(Primary, n, k, Primary, Completed, 1, n);
    InParts(Primary, n, k, Primary, Output, 1, n - 1);
    InParts(Primary, n, k, Primary, ApiErrors, 1, n - 1);
  }

  /** What primary processing left prepared is what submitting the first part
      starts from, and with the two journal records it is what the first
      observer demands. */
  lemma PreparedLinksToFirstObserver(st: State, names: set<string>)
    requires st.status == AdjudicationPrepared
    requires PartName(Adjudication, 1, Intent) !in names && PartName(Adjudication, 1, Completed) !in names
    ensures PrimaryInput(names, st) <==>
            FirstObserver(st, false).Accepts(names + {PartName(Adjudication, 1, Intent), PartName(Adjudication, 1, Completed)})
  {
    hide PrimaryInput, FirstObserver, Evidence, PrimaryFiles, PreparedDerived, PrimaryErrors, PartName;
    PreparedInputIsInterval(names, st);
    NothingSubmitted(st);
    SubmittingLinks(st, 0, names);
    FirstObserverIsEvidence(st);
  }

  lemma NothingSubmitted(st: State)
    ensures Evidence(st, 0, 0) == Interval(PrimaryFiles(st) + PreparedDerived(st), PrimaryErrors(st))
  {
    forall k { OnePart(Adjudication, k); }
    NoParts(PrimaryFiles(st) + PreparedDerived(st), PrimaryErrors(st));
  }

  lemma NoParts(base: set<string>, errors: set<string>)
    ensures base + ({} + {} + {}) == base && errors + {} == errors
  {
  }

  /** The whole chain, for any number of primary and adjudication parts.  Take
      the directory just before the last primary part is observed and add what
      the later steps add: the last output, the derived files and adjudication
      requests, every adjudication journal pair and output, and any choice of
      error files.  The result is an input of the adjudication-result worker
      exactly when the primary observer accepted the start. */
  lemma WholeChain(st: State, names: set<string>, e0: set<string>, e: set<string>)
    requires st.status == AdjudicationPartCompleted && st.primaryParts >= 1 && st.adjudicationParts >= 1
    requires e0 <= {PartName(Primary, st.primaryParts, ApiErrors)}
    requires e <= Parts(Adjudication, ApiErrors, 1, st.adjudicationParts)
    requires names !! {PartName(Primary, st.primaryParts, Output), PartName(Primary, st.primaryParts, ApiErrors)}
    requires names !! PreparedDerived(st) + AdjudicationFiles(st.adjudicationParts, st.adjudicationParts)
                      + Parts(Adjudication, ApiErrors, 1, st.adjudicationParts)
    requires Select(names, AdjudicationWorkerGroup, Requests) <= BaseRequests(st)
    requires Select(names, AdjudicationWorkerGroup, Derived) == {}
    ensures
      var final := names + {PartName(Primary, st.primaryParts, Output)} + e0 + PreparedDerived(st)
                   + AdjudicationFiles(st.adjudicationParts, st.adjudicationParts) + e;
      PrimaryObserver(st, st.primaryParts).Accepts(names) <==> AdjudicationInput(final, st)
  {
    var n, m := st.primaryParts, st.adjudicationParts;
    var processed := names + {PartName(Primary, n, Output)} + e0;
    LastPrimaryPartInterval(st, names, e0);
    LaterIsFresh(st, processed, names, e0);
    var start := Interval(PrimaryFiles(st), PrimaryErrors(st));
    var later := PreparedDerived(st) + AdjudicationFiles(m, m);
    var errors := Parts(Adjudication, ApiErrors, 1, m);
    Reassociate(PrimaryFiles(st), PreparedDerived(st), AdjudicationFiles(m, m), processed, e);
    Grow(start, Evidence(st, m, m), processed, later, errors, e);
    var final := processed + PreparedDerived(st) + AdjudicationFiles(m, m) + e;
    FinalGroups(st, final, names, e0, e);
    AdjudicationInputIsInterval(final, st);
  }

  lemma Reassociate(a: set<string>, b: set<string>, c: set<string>, x: set<string>, e: set<string>)
    ensures a + b + c == a + (b + c)
    ensures x + b + c + e == x + (b + c) + e
  {
  }

  /** Everything the steps after primary observation may add. */
  function Later(st: State): set<string> {
    PreparedDerived(st) + AdjudicationFiles(st.adjudicationParts, st.adjudicationParts)
    + Parts(Adjudication, ApiErrors, 1, st.adjudicationParts)
  }

  lemma LaterIsFresh(st: State, processed: set<string>, names: set<string>, e0: set<string>)
    requires st.primaryParts >= 1
    requires e0 <= {PartName(Primary, st.primaryParts, ApiErrors)}
    requires processed == names + {PartName(Primary, st.primaryParts, Output)} + e0
    requires names !! Later(st)
    ensures PrimaryFiles(st) + PrimaryErrors(st) !! Later(st)
    ensures processed !! Later(st)
  {
    var n, m := st.primaryParts, st.adjudicationParts;
    InParts(Primary, n, Output, Primary, Output, 1, n);
    InParts(Primary, n, ApiErrors, Primary, ApiErrors, 1, n);
    forall k { PartsNotPrimary(st, k, m); }
    FixedNotPrimary(st);
    SixDisjoint(PrimaryFiles(st) + PrimaryErrors(st), PrimaryDerived(), Parts(Adjudication, Request, 1, m),
                Parts(Adjudication, Intent, 1, m), Parts(Adjudication, Completed, 1, m),
                Parts(Adjudication, Output, 1, m), Parts(Adjudication, ApiErrors, 1, m));
    StillDisjoint(names, PartName(Primary, n, Output), e0, PrimaryFiles(st) + PrimaryErrors(st), Later(st));
  }

  lemma SixDisjoint(x: set<string>, a: set<string>, b: set<string>, c: set<string>, d: set<string>, e: set<string>, f: set<string>)
    requires x !! a && x !! b && x !! c && x !! d && x !! e && x !! f
    ensures x !! a + b + (c + d + e) + f
  {
  }

  lemma StillDisjoint(names: set<string>, out: string, e: set<string>, known: set<string>, later: set<string>)
    requires names !! later && known !! later && out in known && e <= known
    ensures names + {out} + e !! later
  {
  }

  lemma PartsNotPrimary(st: State, k: Kind, hi: int)
    ensures PrimaryFiles(st) + PrimaryErrors(st) !! Parts(Adjudication, k, 1, hi)
  {
    forall x | x in Parts(Adjudication, k, 1, hi)
      ensures x !in PrimaryFiles(st) + PrimaryErrors(st)
    {
      var p: nat :| x == PartName(Adjudication, p, k);
      NotPrimary(st, p, k);
    }
  }

  lemma NotAPart(x: string, s: Stage, k: Kind, lo: nat, hi: int)
    requires IsFixedName(x)
    ensures x !in Parts(s, k, lo, hi)
  {
    if x in Parts(s, k, lo, hi) {
      var p: nat :| x == PartName(s, p, k);
      PartIsNotFixed(s, p, k);
    }
  }

  lemma FixedNotPrimary(st: State)
    ensures PrimaryFiles(st) + PrimaryErrors(st) !! PrimaryDerived()
  {
    forall x | x in PrimaryDerived()
      ensures x !in PrimaryFiles(st) + PrimaryErrors(st)
    {
      DerivedIsNoSource(x);
      NotAPart(x, Primary, Request, 1, st.primaryParts);
      NotAPart(x, Primary, Intent, 1, st.primaryParts);
      NotAPart(x, Primary, Completed, 1, st.primaryParts);
      NotAPart(x, Primary, Output, 1, st.primaryParts);
      NotAPart(x, Primary, ApiErrors, 1, st.primaryParts);
    }
  }

  lemma DerivedIsNoSource(x: string)
    requires x in PrimaryDerived()
    ensures x !in {CANDIDATES, SOURCE_MANIFEST} + {RUN_STATE} && IsFixedName(x)
  {
    assert x[0] == 'p';
  }

  lemma FinalGroups(st: State, final: set<string>, names: set<string>, e0: set<string>, e: set<string>)
    requires e0 <= {PartName(Primary, st.primaryParts, ApiErrors)}
    requires e <= Parts(Adjudication, ApiErrors, 1, st.adjudicationParts)
    requires Select(names, AdjudicationWorkerGroup, Requests) <= BaseRequests(st)
    requires Select(names, AdjudicationWorkerGroup, Derived) == {}
    requires final == names + {PartName(Primary, st.primaryParts, Output)} + e0 + PreparedDerived(st)
                      + AdjudicationFiles(st.adjudicationParts, st.adjudicationParts) + e
    ensures Select(final, AdjudicationWorkerGroup, Requests) <= BaseRequests(st)
    ensures Select(final, AdjudicationWorkerGroup, Derived) <= PrimaryDerived()
  {
    var n, m, rule := st.primaryParts, st.adjudicationParts, AdjudicationWorkerGroup;
    FixedAllIn();
    LastOutputAllIn(st, e0);
    PartsAllIn(Adjudication, Request, m);
    PartsAllIn(Adjudication, Intent, m);
    PartsAllIn(Adjudication, Completed, m);
    PartsAllIn(Adjudication, Output, m);
    PartsAllIn(Adjudication, ApiErrors, m);
    AllInUnion(Parts(Adjudication, Intent, 1, m), Parts(Adjudication, Completed, 1, m), rule, Journals);
    AllInSubset(e, Parts(Adjudication, ApiErrors, 1, m), rule, Outputs);
    AllInUnion(Parts(Adjudication, Output, 1, m), e, rule, Outputs);
    Pieces(names, {PartName(Primary, n, Output)} + e0, PrimaryDerived(), Parts(Adjudication, Request, 1, m),
           Parts(Adjudication, Intent, 1, m) + Parts(Adjudication, Completed, 1, m),
           Parts(Adjudication, Output, 1, m) + e, final, rule);
  }

  lemma AllInSubset(a: set<string>, b: set<string>, rule: string -> Group, g: Group)
    requires a <= b && AllIn(b, rule, g)
    ensures AllIn(a, rule, g)
  {
  }

  lemma LastOutputAllIn(st: State, e0: set<string>)
    requires e0 <= {PartName(Primary, st.primaryParts, ApiErrors)}
    ensures AllIn({PartName(Primary, st.primaryParts, Output)} + e0, AdjudicationWorkerGroup, Outputs)
  {
    PartGroups(Primary, st.primaryParts, Output);
    PartGroups(Primary, st.primaryParts, ApiErrors);
  }

  lemma Pieces(names: set<string>, o1: set<string>, d: set<string>, r: set<string>, j: set<string>, o2: set<string>,
               final: set<string>, rule: string -> Group)
    requires AllIn(o1, rule, Outputs) && AllIn(o2, rule, Outputs) && AllIn(d, rule, Derived)
    requires AllIn(r, rule, Requests) && AllIn(j, rule, Journals)
    requires forall n :: n in final ==> n in names || n in o1 || n in d || n in r || n in j || n in o2
    ensures Select(final, rule, Requests) <= Select(names, rule, Requests) + r
    ensures Select(final, rule, Derived) <= Select(names, rule, Derived) + d
  {
  }
}
