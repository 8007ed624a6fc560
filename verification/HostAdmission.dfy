/** Which hosts a refresh takes on, and what it leaves there, host by host. */
module HostAdmission {
  import opened RunState
  import opened HostRefresh

  /** The files are the wanted ones afterwards where the refresh writes, and
      untouched elsewhere. */
  lemma AfterExactly(plan: Plan, files: Files, p: Path)
    requires WellFormed(plan)
    ensures var after := After(plan, files, PathSet(Order(plan)));
      if p in plan.helpers || p == Sudoers || p == Dispatch then p in after && after[p] == plan.managed[p]
      else (p in after <==> p in files) && (p in files ==> after[p] == files[p])
  {
    assert p in Order(plan) <==> p in plan.helpers || p == Sudoers || p == Dispatch;
  }

  /** A host with every managed file, the reviewed key, a policy that is the
      wanted one or any of the older ones, and policies that parse is refreshed
      to the target: all files it writes are then the wanted ones, and so is
      the key; the rest has to be current already. */
  lemma SupportedHostIsRefreshed(plan: Plan, files: Files, grammar: Bytes -> bool)
    requires WellFormed(plan) && plan.managed.Keys <= files.Keys
    requires files[AuthorizedKeys] == plan.managed[AuthorizedKeys]
    requires files[Sudoers] == plan.managed[Sudoers] || files[Sudoers] in plan.legacy
    requires grammar(plan.managed[Sudoers]) && grammar(files[Sudoers])
    requires forall p :: p in plan.managed && p !in plan.helpers && p !in {Sudoers, Dispatch} ==> files[p] == plan.managed[p]
    ensures Admitted(plan, files, grammar)
    ensures var after := After(plan, files, PathSet(Order(plan)));
      forall p :: p in plan.managed ==> p in after && after[p] == plan.managed[p]
  {
    forall p | p in plan.managed
      ensures p in After(plan, files, PathSet(Order(plan)))
      ensures After(plan, files, PathSet(Order(plan)))[p] == plan.managed[p]
    {
      AfterExactly(plan, files, p);
    }
  }

  /** What the corpus refresh asks of a host, and the order of its writes. */
  lemma CorpusAdmissionExactly(managed: Files, legacy: set<Bytes>, files: Files, grammar: Bytes -> bool)
    requires CorpusManaged(managed) && WellFormed(CorpusPlan(managed, legacy))
    ensures Order(CorpusPlan(managed, legacy)) == [CorpusTransfer, CorpusProcess, CorpusSpeakerReview, Sudoers, Dispatch]
    ensures Admitted(CorpusPlan(managed, legacy), files, grammar) <==>
      && {Dispatch, CorpusTransfer, Sudoers, AuthorizedKeys} <= files.Keys
      && files[AuthorizedKeys] == managed[AuthorizedKeys]
      && (files[Sudoers] == managed[Sudoers] || files[Sudoers] in legacy)
      && grammar(managed[Sudoers])
  {
    forall p | p in managed && p !in files
      ensures p in {Dispatch, CorpusTransfer, Sudoers, AuthorizedKeys} || p in {CorpusProcess, CorpusSpeakerReview}
    {
    }
  }

  /** A corpus host on an older policy, complete and with the reviewed key, is
      brought to the target without any further condition. */
  lemma OlderCorpusHostIsRefreshed(managed: Files, legacy: set<Bytes>, files: Files, grammar: Bytes -> bool)
    requires CorpusManaged(managed) && managed.Keys <= files.Keys && files[AuthorizedKeys] == managed[AuthorizedKeys]
    requires files[Sudoers] in legacy && grammar(managed[Sudoers])
    ensures WellFormed(CorpusPlan(managed, legacy)) && Admitted(CorpusPlan(managed, legacy), files, grammar)
    ensures var after := After(CorpusPlan(managed, legacy), files, PathSet(Order(CorpusPlan(managed, legacy))));
      forall p :: p in managed ==> p in after && after[p] == managed[p]
  {
    var plan := CorpusPlan(managed, legacy);
    CorpusAdmissionExactly(managed, legacy, files, grammar);
    forall p | p in managed
      ensures p in After(plan, files, PathSet(Order(plan)))
      ensures After(plan, files, PathSet(Order(plan)))[p] == managed[p]
    {
      AfterExactly(plan, files, p);
    }
  }

  /** The review refresh asks for the first helper and one final-review helper
      to be there, and for policies that parse, the installed one included. */
  lemma ReviewAdmissionExactly(managed: Files, legacy: set<Bytes>, files: Files, grammar: Bytes -> bool)
    requires ReviewManaged(managed) && WellFormed(ReviewPlan(managed, legacy))
    ensures Admitted(ReviewPlan(managed, legacy), files, grammar) <==>
      && {Submission, FinalReview, Dispatch, Sudoers, AuthorizedKeys} <= files.Keys
      && files[AuthorizedKeys] == managed[AuthorizedKeys]
      && (files[Sudoers] == managed[Sudoers] || files[Sudoers] in legacy)
      && grammar(managed[Sudoers]) && grammar(files[Sudoers])
  {
    ReviewOptional(managed, legacy);
    hide ReviewPlan, ReviewManaged, ReviewHelpers;
    assert ReviewPlan(managed, legacy).managed == managed && ReviewPlan(managed, legacy).legacy == legacy
        && ReviewPlan(managed, legacy).checksInstalled by { ReviewFields(managed, legacy); }
    AdmissionOf(ReviewPlan(managed, legacy), {Submission, FinalReview, Dispatch, Sudoers, AuthorizedKeys}, files, grammar);
  }

  lemma ReviewFields(managed: Files, legacy: set<Bytes>)
    ensures var plan := ReviewPlan(managed, legacy); plan.managed == managed && plan.legacy == legacy && plan.checksInstalled
  {
    hide ReviewHelpers;
  }

  /** All managed files but these five may be missing. */
  lemma ReviewOptional(managed: Files, legacy: set<Bytes>)
    requires ReviewManaged(managed)
    ensures {Submission, FinalReview, Dispatch, Sudoers, AuthorizedKeys} <= managed.Keys
    ensures forall p :: p in managed ==>
      (p in ReviewPlan(managed, legacy).optional <==> p !in {Submission, FinalReview, Dispatch, Sudoers, AuthorizedKeys})
  {
    ReviewHelpersAreDistinct();
    SubmissionIsAHelper();
    hide ReviewHelpers;
  }

  /** A refresh that may miss all but `needed`. */
  lemma AdmissionOf(plan: Plan, needed: set<Path>, files: Files, grammar: Bytes -> bool)
    requires WellFormed(plan) && needed <= plan.managed.Keys && {Dispatch, Sudoers, AuthorizedKeys} <= needed
    requires forall p :: p in plan.managed ==> (p in plan.optional <==> p !in needed)
    ensures Admitted(plan, files, grammar) <==>
      && needed <= files.Keys
      && files[AuthorizedKeys] == plan.managed[AuthorizedKeys]
      && (files[Sudoers] == plan.managed[Sudoers] || files[Sudoers] in plan.legacy)
      && grammar(plan.managed[Sudoers]) && (plan.checksInstalled ==> grammar(files[Sudoers]))
  {
  }

  /** The order of the review host's writes. */
  lemma ReviewOrderSpelled(managed: Files, legacy: set<Bytes>)
    ensures Order(ReviewPlan(managed, legacy)) ==
      [Submission, Observation, NextPrimary, NextObservation, PrimaryResults, AdjudicationResults,
       FirstAdjudication, FirstAdjudicationObservation, NextAdjudication, NextAdjudicationObservation,
       ThirdAdjudication, ThirdAdjudicationObservation, FourthAdjudication, FourthAdjudicationObservation,
       Sudoers, Dispatch]
  {
  }
}
