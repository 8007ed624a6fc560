/** The file sets each worker demands of the run directory, one function per
    worker, and the theorem that they chain from stage to stage. */
module Inventories {
  import opened Names
  import opened Groups
  import opened RunState

  /** The names of one kind for parts `lo..hi`, both included. */
  function Parts(s: Stage, k: Kind, lo: nat, hi: int): set<string> {
    set p: nat | lo <= p <= hi :: PartName(s, p, k)
  }

  lemma InParts(s: Stage, p: nat, k: Kind, s': Stage, k': Kind, lo: nat, hi: int)
    ensures PartName(s, p, k) in Parts(s', k', lo, hi) <==> s == s' && k == k' && lo <= p <= hi
  {
    if PartName(s, p, k) in Parts(s', k', lo, hi) {
      var q: nat :| lo <= q <= hi && PartName(s', q, k') == PartName(s, p, k);
      PartNamesInjective(s, p, k, s', q, k');
    }
  }

  /** The acceptance interval every observer uses. */
  predicate Within(names: set<string>, required: set<string>, optional: set<string>) {
    required <= names && names <= required + optional
  }

  datatype Interval = Interval(required: set<string>, optional: set<string>) {
    predicate Accepts(names: set<string>) { Within(names, required, optional) }
  }

  function Sources(): set<string> { {CANDIDATES, SOURCE_MANIFEST, RUN_STATE} }

  // ------------------------------------------------ one inventory per worker

  /** Primary observer, while part `target` is outstanding. */
  function PrimaryObserver(st: State, target: nat): Interval {
    Interval(
      Sources()
        + Parts(Primary, Request, 1, st.primaryParts)
        + Parts(Primary, Intent, 1, target)
        + Parts(Primary, Completed, 1, target)
        + Parts(Primary, Output, 1, target - 1),
      Parts(Primary, ApiErrors, 1, target - 1))
  }

  /** First adjudication observer. */
  function FirstObserver(st: State, observed: bool): Interval {
    Interval(
      Sources()
        + Parts(Primary, Request, 1, st.primaryParts)
        + Parts(Primary, Intent, 1, st.primaryParts)
        + Parts(Primary, Completed, 1, st.primaryParts)
        + Parts(Primary, Output, 1, st.primaryParts)
        + Parts(Adjudication, Request, 1, st.adjudicationParts)
        + {PartName(Adjudication, 1, Intent), PartName(Adjudication, 1, Completed)}
        + PrimaryDerived()
        + (if observed then {PartName(Adjudication, 1, Output)} else {}),
      Parts(Primary, ApiErrors, 1, st.primaryParts)
        + (if observed then {PartName(Adjudication, 1, ApiErrors)} else {}))
  }

  /** Generic adjudication observer; the third and fourth repeat it. */
  function NextObserver(st: State): Interval {
    var completed := st.adjudicationCompleted;
    var journalEnd := if st.status in {AdjudicationSubmitted, Failed} then completed + 1 else completed;
    Interval(
      Sources()
        + Parts(Primary, Request, 1, st.primaryParts)
        + Parts(Primary, Intent, 1, st.primaryParts)
        + Parts(Primary, Completed, 1, st.primaryParts)
        + Parts(Primary, Output, 1, st.primaryParts)
        + Parts(Adjudication, Request, 1, st.adjudicationParts)
        + Parts(Adjudication, Intent, 1, journalEnd)
        + Parts(Adjudication, Completed, 1, journalEnd)
        + PrimaryDerived()
        + Parts(Adjudication, Output, 1, completed),
      Parts(Primary, ApiErrors, 1, st.primaryParts)
        + (if st.status == Failed then {TERMINAL_ERRORS} else {})
        + Parts(Adjudication, ApiErrors, 1, completed))
  }

  /** Submission worker for part completed + 1. */
  function NextSubmission(st: State): Interval {
    var completed := st.adjudicationCompleted;
    var journalEnd := if st.status == AdjudicationSubmitted then completed + 1 else completed;
    Interval(
      Sources()
        + Parts(Primary, Request, 1, st.primaryParts)
        + Parts(Primary, Output, 1, st.primaryParts)
        + Parts(Adjudication, Output, 1, completed)
        + Parts(Primary, Intent, 1, st.primaryParts)
        + Parts(Primary, Completed, 1, st.primaryParts)
        + Parts(Adjudication, Request, 1, st.adjudicationParts)
        + Parts(Adjudication, Intent, 1, journalEnd)
        + Parts(Adjudication, Completed, 1, journalEnd)
        + PrimaryDerived(),
      Parts(Primary, ApiErrors, 1, st.primaryParts)
        + Parts(Adjudication, ApiErrors, 1, completed)
        + (if st.status == AdjudicationPartCompleted then
             {PartName(Adjudication, completed + 1, Intent), PartName(Adjudication, completed + 1, Completed),
              PartName(Adjudication, completed + 1, Output), PartName(Adjudication, completed + 1, ApiErrors)}
           else {}))
  }

  /** The files of one group. */
  function Select(names: set<string>, rule: string -> Group, g: Group): set<string> {
    set n | n in names && rule(n) == g
  }
}
