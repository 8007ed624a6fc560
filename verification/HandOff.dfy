/** The separately written inventories chain: what one worker leaves behind is
    exactly what the next one demands. */
module HandOff {
  import opened Names
  import opened Groups
  import opened RunState
  import opened Files
  import opened Inventories
  import opened PrimaryProcessing
  import opened AdjudicationProcessing

  // ------------------------------------- the processing workers, as intervals

  /** The primary-result worker's checks on the names of a flat directory. */
  predicate PrimaryInput(names: set<string>, st: State) {
    && RUN_STATE in names
    && Select(names, PrimaryWorkerGroup, Artifacts) == ExpectedArtifacts(st)
    && Select(names, PrimaryWorkerGroup, Journals) == ExpectedJournals(st)
    && OutputsOk(Select(names, PrimaryWorkerGroup, Outputs), st)
    && DerivedOk(Select(names, PrimaryWorkerGroup, Derived), st, Option.None)
  }

  /** The adjudication-result worker's checks on the names of a flat directory. */
  predicate AdjudicationInput(names: set<string>, st: State) {
    AdjudicationGroupsOk(names, st, AdjudicationWorkerGroup)
  }

  predicate AdjudicationGroupsOk(names: set<string>, st: State, rule: string -> Group) {
    && RUN_STATE in names
    && Select(names, rule, Artifacts) == {CANDIDATES, SOURCE_MANIFEST}
    && Select(names, rule, Journals) == AllJournals(st)
    && Within(Select(names, rule, Outputs), RequiredOutputs(st), OptionalOutputs(st))
    && RequestShape(Select(names, rule, Requests), st)
    && DerivedShape(Select(names, rule, Derived), {}, st, ReviewedSet({}, {}))
  }

  // ------------------------------------------------------- one normal form

  function PrimaryFiles(st: State): set<string> {
    {RUN_STATE} + ExpectedArtifacts(st) + ExpectedJournals(st) + Parts(Primary, Output, 1, st.primaryParts)
  }

  function PrimaryErrors(st: State): set<string> { Parts(Primary, ApiErrors, 1, st.primaryParts) }

  function AdjudicationFiles(journals: int, outputs: int): set<string> {
    Parts(Adjudication, Intent, 1, journals) + Parts(Adjudication, Completed, 1, journals)
    + Parts(Adjudication, Output, 1, outputs)
  }

  /** The evidence of a run with `journals` adjudication parts submitted and
      `outputs` of them observed. */
  function Evidence(st: State, journals: int, outputs: int): Interval {
    Interval(PrimaryFiles(st) + PreparedDerived(st) + AdjudicationFiles(journals, outputs),
             PrimaryErrors(st) + Parts(Adjudication, ApiErrors, 1, outputs))
  }

  predicate AllIn(names: set<string>, rule: string -> Group, g: Group) {
    forall n :: n in names ==> rule(n) == g
  }

  /** Checking the groups one by one is checking one interval, when the parts
      of the interval each lie in their group. */
  lemma GroupsMakeInterval(names: set<string>, rule: string -> Group,
                           a: set<string>, r: set<string>, j: set<string>,
                           o: set<string>, extra: set<string>, d: set<string>)
    requires KeepsStateApart(rule)
    requires AllIn(a, rule, Artifacts) && AllIn(r, rule, Requests) && AllIn(j, rule, Journals)
    requires AllIn(o, rule, Outputs) && AllIn(extra, rule, Outputs) && AllIn(d, rule, Derived)
    ensures (&& RUN_STATE in names && Select(names, rule, Artifacts) == a && Select(names, rule, Requests) == r
             && Select(names, rule, Journals) == j && Within(Select(names, rule, Outputs), o, extra)
             && Select(names, rule, Derived) == d)
            <==> Within(names, {RUN_STATE} + a + r + j + o + d, extra)
  {
    if && RUN_STATE in names && Select(names, rule, Artifacts) == a && Select(names, rule, Requests) == r
       && Select(names, rule, Journals) == j && Within(Select(names, rule, Outputs), o, extra)
       && Select(names, rule, Derived) == d
    {
      forall n | n in names
        ensures n in {RUN_STATE} + a + r + j + o + d + extra
      {
        assert n in Select(names, rule, rule(n));
        match rule(n) { case StateFile => case Artifacts => case Requests => case Journals => case Outputs => case Derived => }
      }
    }
  }

  lemma PartsAllIn(s: Stage, k: Kind, hi: int)
    ensures AllIn(Parts(s, k, 1, hi), AdjudicationWorkerGroup,
      match k case Request => Requests case Output => Outputs case ApiErrors => Outputs
              case Intent => Journals case Completed => Journals)
    ensures s == Primary ==> AllIn(Parts(s, k, 1, hi), PrimaryWorkerGroup,
      match k case Request => Artifacts case Output => Outputs case ApiErrors => Outputs
              case Intent => Journals case Completed => Journals)
    ensures s != Primary ==> AllIn(Parts(s, k, 1, hi), PrimaryWorkerGroup, Derived)
  {
    forall p: nat { PartGroups(s, p, k); }
  }

  lemma FixedAllIn()
    ensures AllIn({CANDIDATES, SOURCE_MANIFEST}, PrimaryWorkerGroup, Artifacts)
    ensures AllIn({CANDIDATES, SOURCE_MANIFEST}, AdjudicationWorkerGroup, Artifacts)
    ensures AllIn(PrimaryDerived(), PrimaryWorkerGroup, Derived)
    ensures AllIn(PrimaryDerived(), AdjudicationWorkerGroup, Derived)
  {
    forall n | n in {CANDIDATES, SOURCE_MANIFEST}
      ensures PrimaryWorkerGroup(n) == Artifacts && AdjudicationWorkerGroup(n) == Artifacts
    {
      SourceGroups(n);
    }
    forall n | n in PrimaryDerived()
      ensures PrimaryWorkerGroup(n) == Derived && AdjudicationWorkerGroup(n) == Derived
    {
      PrimaryDerivedGroups(n);
    }
  }

  lemma AllInUnion(a: set<string>, b: set<string>, rule: string -> Group, g: Group)
    requires AllIn(a, rule, g) && AllIn(b, rule, g)
    ensures AllIn(a + b, rule, g)
  {
  }

  lemma PrimaryPieces(st: State)
    ensures AllIn(ExpectedArtifacts(st), PrimaryWorkerGroup, Artifacts)
    ensures AllIn(ExpectedJournals(st), PrimaryWorkerGroup, Journals)
    ensures AllIn(Parts(Primary, Output, 1, st.primaryParts), PrimaryWorkerGroup, Outputs)
    ensures AllIn(Parts(Primary, ApiErrors, 1, st.primaryParts), PrimaryWorkerGroup, Outputs)
    ensures AllIn(PreparedDerived(st), PrimaryWorkerGroup, Derived)
  {
    var n, rule := st.primaryParts, PrimaryWorkerGroup;
    FixedAllIn();
    PartsAllIn(Primary, Request, n);
    AllInUnion({CANDIDATES, SOURCE_MANIFEST}, Parts(Primary, Request, 1, n), rule, Artifacts);
    PartsAllIn(Primary, Intent, n);
    PartsAllIn(Primary, Completed, n);
    AllInUnion(Parts(Primary, Intent, 1, n), Parts(Primary, Completed, 1, n), rule, Journals);
    PartsAllIn(Primary, Output, n);
    PartsAllIn(Primary, ApiErrors, n);
    PartsAllIn(Adjudication, Request, st.adjudicationParts);
    AllInUnion(PrimaryDerived(), Parts(Adjudication, Request, 1, st.adjudicationParts), rule, Derived);
  }

  /** The input of the primary-result worker once it has prepared adjudication,
      as one interval. */
  lemma PreparedInputIsInterval(names: set<string>, st: State)
    requires st.status == AdjudicationPrepared
    ensures PrimaryInput(names, st) <==> Within(names, PrimaryFiles(st) + PreparedDerived(st), PrimaryErrors(st))
  {
    hide PartName, Parts, ExpectedArtifacts, ExpectedJournals, PreparedDerived, PrimaryWorkerGroup;
    PrimaryPieces(st);
    RulesKeepStateApart();
    var o, e := Parts(Primary, Output, 1, st.primaryParts), PrimaryErrors(st);
    GroupsMakeInterval(names, PrimaryWorkerGroup, ExpectedArtifacts(st), {}, ExpectedJournals(st), o, e, PreparedDerived(st));
    NothingIsARequest(names);
    DropEmpty({RUN_STATE} + ExpectedArtifacts(st), ExpectedJournals(st), o, PreparedDerived(st));
  }

  /** The same before it has run, when nothing is derived yet. */
  lemma FreshInputIsInterval(names: set<string>, st: State)
    requires st.status == PrimaryPartCompleted
    requires Select(names, PrimaryWorkerGroup, Derived) == {}
    ensures PrimaryInput(names, st) <==> Within(names, PrimaryFiles(st), PrimaryErrors(st))
  {
    hide PartName, Parts, ExpectedArtifacts, ExpectedJournals, PreparedDerived, PrimaryWorkerGroup, Retryable;
    PrimaryPieces(st);
    RulesKeepStateApart();
    var o, e := Parts(Primary, Output, 1, st.primaryParts), PrimaryErrors(st);
    GroupsMakeInterval(names, PrimaryWorkerGroup, ExpectedArtifacts(st), {}, ExpectedJournals(st), o, e, {});
    NothingIsARequest(names);
    DropEmpty({RUN_STATE} + ExpectedArtifacts(st), ExpectedJournals(st), o, {});
  }

  lemma DropEmpty(a: set<string>, j: set<string>, o: set<string>, d: set<string>)
    ensures a + {} + j + o + d == a + j + o + d
    ensures a + j + o + {} == a + j + o
  {
  }

  lemma RulesKeepStateApart()
    ensures KeepsStateApart(PrimaryWorkerGroup) && KeepsStateApart(ObserverGroup)
    ensures KeepsStateApart(AdjudicationWorkerGroup)
  {
  }

  lemma NothingIsARequest(names: set<string>)
    ensures Select(names, PrimaryWorkerGroup, Requests) == {}
  {
  }

  /** The input of the adjudication-result worker before it has run, as one
      interval. */
  lemma AdjudicationInputIsInterval(names: set<string>, st: State)
    requires st.status == AdjudicationPartCompleted
    requires Select(names, AdjudicationWorkerGroup, Requests) <= BaseRequests(st)
    requires Select(names, AdjudicationWorkerGroup, Derived) <= PrimaryDerived()
    ensures AdjudicationInput(names, st) <==> Evidence(st, st.adjudicationParts, st.adjudicationParts).Accepts(names)
  {
    AdjudicationPieces(st);
    RulesKeepStateApart();
    AdjudicationGroupsInterval(names, st, AdjudicationWorkerGroup);
    AllEvidence(st);
  }

  lemma AdjudicationGroupsInterval(names: set<string>, st: State, rule: string -> Group)
    requires st.status == AdjudicationPartCompleted
    requires KeepsStateApart(rule)
    requires AllIn(BaseRequests(st), rule, Requests) && AllIn(AllJournals(st), rule, Journals)
    requires AllIn(RequiredOutputs(st), rule, Outputs) && AllIn(OptionalOutputs(st), rule, Outputs)
    requires AllIn({CANDIDATES, SOURCE_MANIFEST}, rule, Artifacts) && AllIn(PrimaryDerived(), rule, Derived)
    requires Select(names, rule, Requests) <= BaseRequests(st)
    requires Select(names, rule, Derived) <= PrimaryDerived()
    ensures AdjudicationGroupsOk(names, st, rule) <==>
      Within(names,
        {RUN_STATE} + {CANDIDATES, SOURCE_MANIFEST} + BaseRequests(st) + AllJournals(st) + RequiredOutputs(st) + PrimaryDerived(),
        OptionalOutputs(st))
  {
    GroupsMakeInterval(names, rule, {CANDIDATES, SOURCE_MANIFEST}, BaseRequests(st), AllJournals(st),
                       RequiredOutputs(st), OptionalOutputs(st), PrimaryDerived());
    SmallInput(names, st, rule);
  }

  lemma AllEvidence(st: State)
    ensures Evidence(st, st.adjudicationParts, st.adjudicationParts) == Interval(
      {RUN_STATE} + {CANDIDATES, SOURCE_MANIFEST} + BaseRequests(st) + AllJournals(st) + RequiredOutputs(st) + PrimaryDerived(),
      OptionalOutputs(st))
  {
    var n, m := st.primaryParts, st.adjudicationParts;
    Rearrange({RUN_STATE}, {CANDIDATES, SOURCE_MANIFEST}, Parts(Primary, Request, 1, n), Parts(Adjudication, Request, 1, m),
              ExpectedJournals(st), Parts(Adjudication, Intent, 1, m), Parts(Adjudication, Completed, 1, m),
              Parts(Primary, Output, 1, n), Parts(Adjudication, Output, 1, m), PrimaryDerived());
  }

  lemma Rearrange(rs: set<string>, cs: set<string>, pr: set<string>, ar: set<string>, pj: set<string>,
                  ai: set<string>, ac: set<string>, po: set<string>, ao: set<string>, pd: set<string>)
    ensures rs + cs + (pr + ar) + (pj + ai + ac) + (po + ao) + pd
         == (rs + (cs + pr) + pj + po) + (pd + ar) + (ai + ac + ao)
  {
  }

  /** Without final-review requests or new derived files the two interval
      checks of the worker are equalities. */
  lemma SmallInput(names: set<string>, st: State, rule: string -> Group)
    requires st.status == AdjudicationPartCompleted
    requires Select(names, rule, Requests) <= BaseRequests(st)
    requires Select(names, rule, Derived) <= PrimaryDerived()
    ensures RequestShape(Select(names, rule, Requests), st) <==> Select(names, rule, Requests) == BaseRequests(st)
    ensures DerivedShape(Select(names, rule, Derived), {}, st, ReviewedSet({}, {})) <==>
            Select(names, rule, Derived) == PrimaryDerived()
  {
  }

  lemma AdjudicationPieces(st: State)
    ensures AllIn(BaseRequests(st), AdjudicationWorkerGroup, Requests)
    ensures AllIn(AllJournals(st), AdjudicationWorkerGroup, Journals)
    ensures AllIn(RequiredOutputs(st), AdjudicationWorkerGroup, Outputs)
    ensures AllIn(OptionalOutputs(st), AdjudicationWorkerGroup, Outputs)
    ensures AllIn({CANDIDATES, SOURCE_MANIFEST}, AdjudicationWorkerGroup, Artifacts)
    ensures AllIn(PrimaryDerived(), AdjudicationWorkerGroup, Derived)
  {
    FixedAllIn();
    KindAllIn(Request, st, Requests);
    KindAllIn(Output, st, Outputs);
    KindAllIn(ApiErrors, st, Outputs);
    KindAllIn(Intent, st, Journals);
    KindAllIn(Completed, st, Journals);
    AllInJournals(Parts(Primary, Intent, 1, st.primaryParts), Parts(Primary, Completed, 1, st.primaryParts),
                  Parts(Adjudication, Intent, 1, st.adjudicationParts), Parts(Adjudication, Completed, 1, st.adjudicationParts),
                  AdjudicationWorkerGroup);
  }

  lemma AllInJournals(a: set<string>, b: set<string>, c: set<string>, d: set<string>, rule: string -> Group)
    requires AllIn(a + c, rule, Journals) && AllIn(b + d, rule, Journals)
    ensures AllIn(a + b + c + d, rule, Journals)
  {
  }

  lemma KindAllIn(k: Kind, st: State, g: Group)
    requires g == match k case Request => Requests case Output => Outputs case ApiErrors => Outputs
                          case Intent => Journals case Completed => Journals
    ensures AllIn(Parts(Primary, k, 1, st.primaryParts) + Parts(Adjudication, k, 1, st.adjudicationParts),
                  AdjudicationWorkerGroup, g)
  {
    PartsAllIn(Primary, k, st.primaryParts);
    PartsAllIn(Adjudication, k, st.adjudicationParts);
    AllInUnion(Parts(Primary, k, 1, st.primaryParts), Parts(Adjudication, k, 1, st.adjudicationParts), AdjudicationWorkerGroup, g);
  }
}
