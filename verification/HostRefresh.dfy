/** Refreshing the code files of a host: a read-only preflight, then one atomic
    write per changed file in a fixed order, the dispatcher last, so that an
    interruption never publishes a command whose helper is not there. */
module HostRefresh {
  import opened RunState

  /** The managed files of the two hosts, named after what they install. */
  datatype Path =
    | Dispatch | Sudoers | AuthorizedKeys
    | CorpusTransfer | CorpusProcess | CorpusSpeakerReview
    | Submission | Observation | NextPrimary | NextObservation
    | PrimaryResults | AdjudicationResults
    | FirstAdjudication | FirstAdjudicationObservation
    | NextAdjudication | NextAdjudicationObservation
    | ThirdAdjudication | ThirdAdjudicationObservation
    | FourthAdjudication | FourthAdjudicationObservation
    | FinalReview | FinalReviewObservation | NextFinalReview

  type Files = map<Path, Bytes>

  /** One refresh: the contents wanted, the files it writes in order before the
      sudo policy and the dispatcher, the helpers that may be missing, and the
      older policies it knows. */
  datatype Plan = Plan(managed: Files, helpers: seq<Path>, optional: set<Path>, legacy: set<Bytes>, checksInstalled: bool)

  function Order(plan: Plan): seq<Path> { plan.helpers + [Sudoers, Dispatch] }

  predicate WellFormed(plan: Plan) {
    && {Sudoers, Dispatch, AuthorizedKeys} <= plan.managed.Keys
    && (forall p :: p in plan.helpers ==> p in plan.managed && p !in {Sudoers, Dispatch, AuthorizedKeys})
    && (forall i, j :: 0 <= i < j < |plan.helpers| ==> plan.helpers[i] != plan.helpers[j])
    && plan.optional <= plan.managed.Keys - {Sudoers, Dispatch, AuthorizedKeys}
  }

  /** The wanted content is installed. */
  predicate Current(plan: Plan, files: Files, p: Path) {
    p in plan.managed && p in files && files[p] == plan.managed[p]
  }

  /** The preflight: only optional helpers may be missing, the authorized key
      is the reviewed one, the policy is the new one or a known older one. */
  predicate Admitted(plan: Plan, files: Files, grammar: Bytes -> bool)
    requires WellFormed(plan)
  {
    && (forall p :: p in plan.managed && p !in files ==> p in plan.optional)
    && Current(plan, files, AuthorizedKeys)
    && files[Sudoers] in {plan.managed[Sudoers]} + plan.legacy
    && grammar(plan.managed[Sudoers])
    && (plan.checksInstalled ==> grammar(files[Sudoers]))
  }

  // ------------------------------------------------------------------ writes

  type Trace = seq<Path>

  function PathSet(s: seq<Path>): set<Path> { set p | p in s }

  /** The files once those in `done` hold the wanted contents. */
  function After(plan: Plan, files: Files, done: set<Path>): Files {
    map p | p in files.Keys + done * plan.managed.Keys :: if p in done * plan.managed.Keys then plan.managed[p] else files[p]
  }

  /** What remains to be written of `order`: the files that are not current. */
  function Pending(plan: Plan, files: Files, order: seq<Path>): Trace {
    if order == [] then [] else
    var front, last := order[..|order| - 1], order[|order| - 1];
    Pending(plan, files, front) + (if Current(plan, files, last) then [] else [last])
  }

  function Writes(plan: Plan, files: Files): Trace { Pending(plan, files, Order(plan)) }

  predicate WritesEachOnce(plan: Plan, order: seq<Path>) {
    forall i :: 0 <= i < |order| ==> order[i] in plan.managed && order[i] !in order[..i]
  }

  predicate SameAt(a: Files, b: Files, p: Path) { (p in a <==> p in b) && (p in a ==> a[p] == b[p]) }

  // -------------------------------------------------------------------- host

  class Host {
    var files: Files
    ghost var written: Trace

    constructor (files: Files)
      ensures this.files == files && written == []
    {
      this.files, written := files, [];
    }

    /** Links a finished temporary file into place; never overwrites. */
    method InstallAbsent(p: Path, content: Bytes) returns (ok: bool)
      modifies this
      ensures ok <==> p !in old(files)
      ensures files == if ok then old(files)[p := content] else old(files)
      ensures written == old(written) + if ok then [p] else []
    {
      if p in files { return false; }
      files, written := files[p := content], written + [p];
      return true;
    }

    method EnsureExact(p: Path, content: Bytes, apply: bool) returns (ok: bool)
      modifies this
      ensures ok <==> if p in old(files) then old(files)[p] == content else apply
      ensures files == if p !in old(files) && apply then old(files)[p := content] else old(files)
      ensures written == old(written) + if p !in old(files) && apply then [p] else []
    {
      if p !in files {
        if !apply { return false; }
        var installed := InstallAbsent(p, content);
      }
      return files[p] == content;
    }

    /** Replaces an existing file in one rename. */
    method ReplaceExact(p: Path, content: Bytes) returns (ok: bool)
      modifies this
      ensures ok <==> p in old(files)
      ensures files == if ok then old(files)[p := content] else old(files)
      ensures written == old(written) + if ok then [p] else []
    {
      if p !in files { return false; }
      files, written := files[p := content], written + [p];
      return true;
    }

    /** Reads what is installed; refuses without writing. */
    method Preflight(plan: Plan, grammar: Bytes -> bool) returns (admitted: bool, installed: Files)
      requires WellFormed(plan)
      ensures admitted <==> Admitted(plan, files, grammar)
      ensures admitted ==> forall p :: p in plan.managed ==> SameAt(installed, files, p)
    {
      installed := map[];
      var pending := plan.managed.Keys;
      while pending != {}
        invariant pending <= plan.managed.Keys
        invariant forall p :: p in plan.managed.Keys - pending ==>
          && SameAt(installed, files, p)
          && (p !in files ==> p in plan.optional)
          && (p == AuthorizedKeys ==> Current(plan, files, AuthorizedKeys))
          && (p == Sudoers ==> files[Sudoers] in {plan.managed[Sudoers]} + plan.legacy)
        invariant forall p :: p in installed ==> p in plan.managed.Keys - pending
      {
        var p :| p in pending;
        pending := pending - {p};
        if p in plan.optional && p !in files { continue; }
        if p !in files { return false, installed; }
        installed := installed[p := files[p]];
        if p == AuthorizedKeys && installed[p] != plan.managed[p] { return false, installed; }
        if p == Sudoers && installed[p] !in {plan.managed[p]} + plan.legacy { return false, installed; }
      }
      admitted := grammar(plan.managed[Sudoers]) && (plan.checksInstalled ==> grammar(files[Sudoers]));
    }

    /** One turn of the ordered loop. */
    method RefreshOne(plan: Plan, p: Path, before: Files, installed: Files)
      requires p in plan.managed
      requires SameAt(installed, before, p) && SameAt(files, before, p)
      modifies this
      ensures files == old(files)[p := plan.managed[p]]
      ensures written == old(written) + if Current(plan, before, p) then [] else [p]
    {
      if p !in installed {
        var created := EnsureExact(p, plan.managed[p], true);
      } else if installed[p] != plan.managed[p] {
        var replaced := ReplaceExact(p, plan.managed[p]);
      }
    }

    method WriteInOrder(plan: Plan, installed: Files, order: seq<Path>)
      requires WritesEachOnce(plan, order)
      requires forall p :: p in plan.managed ==> SameAt(installed, files, p)
      modifies this
      ensures files == After(plan, old(files), PathSet(order))
      ensures written == old(written) + Pending(plan, old(files), order)
    {
      var before := files;
      AfterNothing(plan, files);
      assert order[..0] == [] && Pending(plan, before, []) == [];
      hide After, Pending, Current, SameAt, PathSet, WritesEachOnce;
      for i := 0 to |order|
        invariant written == old(written) + Pending(plan, before, order[..i])
        invariant files == After(plan, before, PathSet(order[..i]))
      {
        OneMore(plan, before, order, i);
        RefreshOne(plan, order[i], before, installed);
        Assoc(old(written), Pending(plan, before, order[..i]), if Current(plan, before, order[i]) then [] else [order[i]]);
      }
      assert order[..|order|] == order;
    }

    /** Preflight, the ordered writes, the final comparison of every managed
        file and a last look at the grammar of the installed policy, which
        never fails where the comparison passes. */
    method Refresh(plan: Plan, grammar: Bytes -> bool) returns (ok: bool)
      requires WellFormed(plan)
      modifies this
      ensures !Admitted(plan, old(files), grammar) ==> !ok && files == old(files) && written == old(written)
      ensures Admitted(plan, old(files), grammar) ==>
        && written == old(written) + Writes(plan, old(files))
        && files == After(plan, old(files), PathSet(Order(plan)))
        && (ok <==> forall p :: p in plan.managed ==> Current(plan, files, p))
      ensures ok ==> Sudoers in files && grammar(files[Sudoers])
    {
      var admitted, installed := Preflight(plan, grammar);
      if !admitted { return false; }
      forall i | 0 <= i < |Order(plan)| { OrderIsDistinct(plan, i); }
      assert grammar(plan.managed[Sudoers]);
      hide Admitted, Pending, After;
      WriteInOrder(plan, installed, Order(plan));
      ok := CompareAll(plan);
      if ok {
        assert Current(plan, files, Sudoers);
        ok := grammar(files[Sudoers]);
      }
    }

    method CompareAll(plan: Plan) returns (ok: bool)
      modifies this
      ensures files == old(files) && written == old(written)
      ensures ok <==> forall p :: p in plan.managed ==> Current(plan, files, p)
    {
      var pending := plan.managed.Keys;
      while pending != {}
        invariant files == old(files) && written == old(written)
        invariant pending <= plan.managed.Keys
        invariant forall p :: p in plan.managed.Keys - pending ==> Current(plan, files, p)
      {
        var p :| p in pending;
        var exact := EnsureExact(p, plan.managed[p], false);
        if !exact { return false; }
        pending := pending - {p};
      }
      return true;
    }
  }

  lemma AfterOneMore(plan: Plan, files: Files, done: set<Path>, p: Path)
    requires p in plan.managed
    ensures After(plan, files, done + {p}) == After(plan, files, done)[p := plan.managed[p]]
  {
  }

  lemma OneMore(plan: Plan, files: Files, order: seq<Path>, i: nat)
    requires i < |order| && WritesEachOnce(plan, order)
    ensures order[i] in plan.managed
    ensures SameAt(After(plan, files, PathSet(order[..i])), files, order[i])
    ensures After(plan, files, PathSet(order[..i + 1])) == After(plan, files, PathSet(order[..i]))[order[i] := plan.managed[order[i]]]
    ensures Pending(plan, files, order[..i + 1])
            == Pending(plan, files, order[..i]) + if Current(plan, files, order[i]) then [] else [order[i]]
  {
    hide After, Pending, SameAt, Current;
    PrefixGrows(order, i);
    PendingGrows(plan, files, order, i);
    AfterOther(plan, files, PathSet(order[..i]), order[i]);
    AfterOneMore(plan, files, PathSet(order[..i]), order[i]);
  }

  lemma Assoc(a: Trace, b: Trace, c: Trace)
    ensures a + b + c == a + (b + c)
  {
  }

  lemma AfterOther(plan: Plan, files: Files, done: set<Path>, p: Path)
    requires p !in done
    ensures SameAt(After(plan, files, done), files, p)
  {
  }

  lemma AfterNothing(plan: Plan, files: Files)
    ensures After(plan, files, {}) == files && PathSet([]) == {}
  {
  }

  lemma PendingGrows(plan: Plan, files: Files, order: seq<Path>, i: nat)
    requires i < |order|
    ensures Pending(plan, files, order[..i + 1])
            == Pending(plan, files, order[..i]) + if Current(plan, files, order[i]) then [] else [order[i]]
  {
    PrefixGrows(order, i);
  }

  lemma PrefixGrows(order: seq<Path>, i: nat)
    requires i < |order|
    ensures order[..i + 1][..i] == order[..i] && PathSet(order[..i + 1]) == PathSet(order[..i]) + {order[i]}
  {
    assert order[..i + 1] == order[..i] + [order[i]];
  }

  lemma OrderIsDistinct(plan: Plan, i: nat)
    requires WellFormed(plan) && i < |Order(plan)|
    ensures Order(plan)[i] !in Order(plan)[..i]
  {
  }

  // ----------------------------------------------------------- crash points

  /** The files when the process died with `i` files of the order done. */
  function CrashPoint(plan: Plan, files: Files, i: nat): Files
    requires i <= |Order(plan)|
  {
    After(plan, files, PathSet(Order(plan)[..i]))
  }

  /** An interrupted refresh is admitted again. */
  lemma CrashPointsAreAdmitted(plan: Plan, files: Files, grammar: Bytes -> bool, i: nat)
    requires WellFormed(plan) && Admitted(plan, files, grammar) && i <= |Order(plan)|
    ensures Admitted(plan, CrashPoint(plan, files, i), grammar)
  {
  }

  lemma {:induction false} PendingAppend(plan: Plan, files: Files, a: seq<Path>, b: seq<Path>)
    ensures Pending(plan, files, a + b) == Pending(plan, files, a) + Pending(plan, files, b)
  {
    if b == [] {
      assert a + b == a;
    } else {
      var front := b[..|b| - 1];
      assert (a + b)[..|a + b| - 1] == a + front;
      PendingAppend(plan, files, a, front);
    }
  }

  lemma {:induction false} PendingMember(plan: Plan, files: Files, order: seq<Path>, p: Path)
    ensures p in Pending(plan, files, order) <==> p in order && !Current(plan, files, p)
  {
    if order != [] { PendingMember(plan, files, order[..|order| - 1], p); }
  }

  lemma {:induction false} PendingOnlyLooksAt(plan: Plan, files: Files, files': Files, order: seq<Path>)
    requires forall p :: p in order ==> (Current(plan, files, p) <==> Current(plan, files', p))
    ensures Pending(plan, files, order) == Pending(plan, files', order)
  {
    if order != [] { PendingOnlyLooksAt(plan, files, files', order[..|order| - 1]); }
  }

  lemma {:induction false} NothingPending(plan: Plan, files: Files, order: seq<Path>)
    requires forall p :: p in order ==> Current(plan, files, p)
    ensures Pending(plan, files, order) == []
  {
    if order != [] { NothingPending(plan, files, order[..|order| - 1]); }
  }

  lemma LaterIsNotEarlier(plan: Plan, i: nat, p: Path)
    requires WellFormed(plan) && i <= |Order(plan)| && p in Order(plan)[i..]
    ensures p !in Order(plan)[..i]
  {
    var order := Order(plan);
    var k :| 0 <= k < |order[i..]| && order[i..][k] == p;
    OrderIsDistinct(plan, i + k);
    assert order[i + k] == p;
    assert order[..i + k][..i] == order[..i];
  }

  lemma CrashPointIsCurrent(plan: Plan, files: Files, i: nat, p: Path)
    requires WellFormed(plan) && i <= |Order(plan)| && p in plan.managed
    ensures Current(plan, CrashPoint(plan, files, i), p) <==> p in Order(plan)[..i] || Current(plan, files, p)
  {
  }

  lemma OrderIsManaged(plan: Plan)
    requires WellFormed(plan)
    ensures forall p :: p in Order(plan) ==> p in plan.managed
  {
  }

  lemma StillPending(plan: Plan, files: Files, i: nat)
    requires WellFormed(plan) && i <= |Order(plan)|
    ensures Pending(plan, CrashPoint(plan, files, i), Order(plan)[..i]) == []
    ensures Pending(plan, CrashPoint(plan, files, i), Order(plan)[i..]) == Pending(plan, files, Order(plan)[i..])
  {
    var (order, middle) := (Order(plan), CrashPoint(plan, files, i));
    OrderIsManaged(plan);
    hide After, Current, Pending, Order, CrashPoint;
    forall p | p in order { CrashPointIsCurrent(plan, files, i, p); }
    NothingPending(plan, middle, order[..i]);
    forall p | p in order[i..] { LaterIsNotEarlier(plan, i, p); }
    PendingOnlyLooksAt(plan, files, middle, order[i..]);
  }

  lemma JoinPending(plan: Plan, files: Files, middle: Files, order: seq<Path>, i: nat)
    requires i <= |order|
    requires Pending(plan, middle, order[..i]) == []
    requires Pending(plan, middle, order[i..]) == Pending(plan, files, order[i..])
    ensures Pending(plan, files, order) == Pending(plan, files, order[..i]) + Pending(plan, middle, order)
  {
    assert order[..i] + order[i..] == order;
    PendingAppend(plan, files, order[..i], order[i..]);
    PendingAppend(plan, middle, order[..i], order[i..]);
    hide Pending;
  }

  /** A rerun writes exactly what the interrupted run left out. */
  lemma RerunWritesTheRest(plan: Plan, files: Files, i: nat)
    requires WellFormed(plan) && i <= |Order(plan)|
    ensures Writes(plan, files) == Pending(plan, files, Order(plan)[..i]) + Writes(plan, CrashPoint(plan, files, i))
  {
    hide After, Current, Pending, Order, CrashPoint;
    StillPending(plan, files, i);
    JoinPending(plan, files, CrashPoint(plan, files, i), Order(plan), i);
  }

  /** The files after one interrupted run for each entry of `stops`, which
      says how far it got. */
  function Interrupted(plan: Plan, files: Files, stops: seq<nat>): Files
    requires WellFormed(plan) && forall i :: i in stops ==> i <= |Order(plan)|
    decreases |stops|
  {
    if stops == [] then files else
    assert stops[0] in stops && forall i :: i in stops[1..] ==> i in stops;
    Interrupted(plan, CrashPoint(plan, files, stops[0]), stops[1..])
  }

  lemma OneRerunConverges(plan: Plan, files: Files, i: nat)
    requires WellFormed(plan) && i <= |Order(plan)|
    ensures After(plan, CrashPoint(plan, files, i), PathSet(Order(plan))) == After(plan, files, PathSet(Order(plan)))
  {
    assert Order(plan)[..i] <= Order(plan);
  }

  /** However often and wherever it is interrupted, a refresh ends where an
      uninterrupted one does, and is admitted again each time. */
  lemma {:induction false} RerunConverges(plan: Plan, files: Files, stops: seq<nat>, grammar: Bytes -> bool)
    requires WellFormed(plan) && forall i :: i in stops ==> i <= |Order(plan)|
    ensures After(plan, Interrupted(plan, files, stops), PathSet(Order(plan))) == After(plan, files, PathSet(Order(plan)))
    ensures Admitted(plan, files, grammar) ==> Admitted(plan, Interrupted(plan, files, stops), grammar)
    decreases |stops|
  {
    hide After, Order, CrashPoint, PathSet, Admitted, WellFormed;
    if stops != [] {
      assert stops[0] in stops && forall i :: i in stops[1..] ==> i in stops;
      OneRerunConverges(plan, files, stops[0]);
      if Admitted(plan, files, grammar) { CrashPointsAreAdmitted(plan, files, grammar, stops[0]); }
      RerunConverges(plan, CrashPoint(plan, files, stops[0]), stops[1..], grammar);
    }
  }

  /** A refresh writes nothing exactly on a host that is already current in
      every listed file. */
  lemma CurrentHostIsUntouched(plan: Plan, files: Files)
    ensures Writes(plan, files) == [] <==> forall p :: p in Order(plan) ==> Current(plan, files, p)
  {
    forall p { PendingMember(plan, files, Order(plan), p); }
    if forall p :: p in Order(plan) ==> Current(plan, files, p) {
      NothingPending(plan, files, Order(plan));
    }
  }

  // ------------------------------------------------------------------ safety

  /** The policy changed only when every listed helper is in place, and the
      dispatcher only when the policy is too, wherever the run stopped. */
  lemma OrderIsFailClosed(plan: Plan, files: Files, i: nat)
    requires WellFormed(plan) && i <= |Order(plan)| && {Sudoers, Dispatch} <= files.Keys
    ensures var f := CrashPoint(plan, files, i);
      && (f[Sudoers] != files[Sudoers] ==> forall p :: p in plan.helpers ==> Current(plan, f, p))
      && (f[Dispatch] != files[Dispatch] ==> forall p :: p in plan.helpers + [Sudoers] ==> Current(plan, f, p))
  {
    var (order, n) := (Order(plan), |plan.helpers|);
    assert order[..n] == plan.helpers && order[..n + 1] == plan.helpers + [Sudoers];
    PlaceOf(plan, Sudoers, n, i);
    PlaceOf(plan, Dispatch, n + 1, i);
    forall p, k: nat | k <= i && p in order[..k]
      ensures p in order[..i]
    {
      assert order[..i][..k] == order[..k];
    }
  }

  lemma PlaceOf(plan: Plan, p: Path, at: nat, i: nat)
    requires WellFormed(plan) && at < |Order(plan)| && Order(plan)[at] == p && i <= |Order(plan)|
    ensures p in Order(plan)[..i] <==> at < i
  {
    OrderIsDistinct(plan, at);
    if at < i {
      assert Order(plan)[..i][at] == p;
    } else {
      assert Order(plan)[..at][..i] == Order(plan)[..i];
    }
  }

  /** The new dispatcher reaches every command, so every managed file must be
      the new one by then. */
  predicate SafeToReach(plan: Plan, files: Files)
    requires Dispatch in plan.managed
  {
    Current(plan, files, Dispatch) ==> forall p :: p in plan.managed ==> Current(plan, files, p)
  }

  /** Managed files the refresh never writes. */
  function Omitted(plan: Plan): set<Path> {
    set p | p in plan.managed && p !in Order(plan)
  }

  predicate OmittedCurrent(plan: Plan, files: Files) {
    forall p :: p in Omitted(plan) ==> Current(plan, files, p)
  }

  /** The refresh reaches its whole target exactly when the managed files it
      does not write were current to begin with. */
  lemma TargetReachedExactly(plan: Plan, files: Files)
    requires WellFormed(plan)
    ensures (forall p :: p in plan.managed ==> Current(plan, After(plan, files, PathSet(Order(plan))), p))
            <==> OmittedCurrent(plan, files)
  {
    var after := After(plan, files, PathSet(Order(plan)));
    forall p | p in Omitted(plan)
      ensures Current(plan, after, p) <==> Current(plan, files, p)
    {
    }
  }

  /** From an older dispatcher, no crash point publishes a command early
      exactly under the same condition. */
  lemma NeverReachableEarlyExactly(plan: Plan, files: Files)
    requires WellFormed(plan) && {Sudoers, Dispatch} <= files.Keys && !Current(plan, files, Dispatch)
    ensures (forall i: nat :: i <= |Order(plan)| ==> SafeToReach(plan, CrashPoint(plan, files, i)))
            <==> OmittedCurrent(plan, files)
  {
    var order := Order(plan);
    TargetReachedExactly(plan, files);
    assert order[..|order|] == order && order[|order| - 1] == Dispatch;
    if OmittedCurrent(plan, files) {
      forall i: nat | i <= |order|
        ensures SafeToReach(plan, CrashPoint(plan, files, i))
      {
        SafeAt(plan, files, i);
      }
    } else {
      assert !SafeToReach(plan, CrashPoint(plan, files, |order|));
    }
  }

  lemma SafeAt(plan: Plan, files: Files, i: nat)
    requires WellFormed(plan) && {Sudoers, Dispatch} <= files.Keys && !Current(plan, files, Dispatch)
    requires OmittedCurrent(plan, files) && i <= |Order(plan)|
    ensures SafeToReach(plan, CrashPoint(plan, files, i))
  {
    var f := CrashPoint(plan, files, i);
    OrderIsFailClosed(plan, files, i);
    if Current(plan, f, Dispatch) {
      forall p | p in plan.managed
        ensures Current(plan, f, p)
      {
        if p in Omitted(plan) { assert p !in Order(plan)[..i]; }
      }
    }
  }

  // --------------------------------------------------------------- two hosts

  function CorpusPlan(managed: Files, legacy: set<Bytes>): Plan {
    Plan(managed, [CorpusTransfer, CorpusProcess, CorpusSpeakerReview], {CorpusProcess, CorpusSpeakerReview}, legacy, false)
  }

  predicate CorpusManaged(managed: Files) {
    managed.Keys == {Dispatch, CorpusTransfer, CorpusProcess, CorpusSpeakerReview, Sudoers, AuthorizedKeys}
  }

  function ReviewHelpers(): seq<Path> {
    [Submission, Observation, NextPrimary, NextObservation, PrimaryResults, AdjudicationResults,
     FirstAdjudication, FirstAdjudicationObservation, NextAdjudication, NextAdjudicationObservation,
     ThirdAdjudication, ThirdAdjudicationObservation, FourthAdjudication, FourthAdjudicationObservation]
  }

  function FinalReviewHelpers(): set<Path> { {FinalReview, FinalReviewObservation, NextFinalReview} }

  function ReviewPlan(managed: Files, legacy: set<Bytes>): Plan {
    Plan(managed, ReviewHelpers(),
         (set p | p in ReviewHelpers()) - {Submission} + {FinalReviewObservation, NextFinalReview}, legacy, true)
  }

  predicate ReviewManaged(managed: Files) {
    managed.Keys == (set p | p in ReviewHelpers()) + FinalReviewHelpers() + {Sudoers, Dispatch, AuthorizedKeys}
  }

  lemma CorpusOmitsOnlyTheKey(managed: Files, legacy: set<Bytes>)
    requires CorpusManaged(managed)
    ensures WellFormed(CorpusPlan(managed, legacy)) && Omitted(CorpusPlan(managed, legacy)) == {AuthorizedKeys}
  {
  }

  lemma ReviewHelpersAreDistinct()
    ensures var h := ReviewHelpers(); forall i, j :: 0 <= i < j < |h| ==> h[i] != h[j]
    ensures forall p :: p in ReviewHelpers() ==> p !in FinalReviewHelpers() + {Sudoers, Dispatch, AuthorizedKeys}
  {
  }

  lemma ReviewOmitsTheFinalReview(managed: Files, legacy: set<Bytes>)
    requires ReviewManaged(managed)
    ensures WellFormed(ReviewPlan(managed, legacy))
    ensures Omitted(ReviewPlan(managed, legacy)) == FinalReviewHelpers() + {AuthorizedKeys}
  {
    hide ReviewHelpers;
    ReviewHelpersAreDistinct();
    SubmissionIsAHelper();
  }

  lemma SubmissionIsAHelper()
    ensures Submission in ReviewHelpers()
  {
  }

  /** Every admitted corpus refresh is safe at every crash point and reaches
      its target. */
  lemma CorpusRefreshIsSafe(managed: Files, legacy: set<Bytes>, files: Files, grammar: Bytes -> bool)
    requires CorpusManaged(managed)
    requires WellFormed(CorpusPlan(managed, legacy)) && Admitted(CorpusPlan(managed, legacy), files, grammar)
    ensures var plan := CorpusPlan(managed, legacy);
      && (forall p :: p in managed ==> Current(plan, After(plan, files, PathSet(Order(plan))), p))
      && (!Current(plan, files, Dispatch) ==>
            forall i: nat :: i <= |Order(plan)| ==> SafeToReach(plan, CrashPoint(plan, files, i)))
  {
    var plan := CorpusPlan(managed, legacy);
    CorpusOmitsOnlyTheKey(managed, legacy);
    hide CorpusPlan;
    TargetReachedExactly(plan, files);
    if !Current(plan, files, Dispatch) { NeverReachableEarlyExactly(plan, files); }
  }

  predicate FinalReviewInstalled(managed: Files, files: Files)
    requires FinalReviewHelpers() <= managed.Keys
  {
    forall p :: p in FinalReviewHelpers() ==> p in files && files[p] == managed[p]
  }

  /** The review refresh reaches its target, and is safe from an older
      dispatcher, exactly when the three final-review helpers were installed
      beforehand: its write list leaves them out. */
  lemma ReviewRefreshNeedsTheFinalReview(managed: Files, legacy: set<Bytes>, files: Files, grammar: Bytes -> bool)
    requires ReviewManaged(managed)
    requires WellFormed(ReviewPlan(managed, legacy)) && Admitted(ReviewPlan(managed, legacy), files, grammar)
    ensures var plan := ReviewPlan(managed, legacy);
      && ((forall p :: p in managed ==> Current(plan, After(plan, files, PathSet(Order(plan))), p))
          <==> FinalReviewInstalled(managed, files))
      && (!Current(plan, files, Dispatch) ==>
            ((forall i: nat :: i <= |Order(plan)| ==> SafeToReach(plan, CrashPoint(plan, files, i)))
             <==> FinalReviewInstalled(managed, files)))
  {
    var plan := ReviewPlan(managed, legacy);
    ReviewOmitsTheFinalReview(managed, legacy);
    assert plan.managed == managed;
    hide ReviewPlan, ReviewHelpers;
    assert OmittedCurrent(plan, files) <==> FinalReviewInstalled(managed, files);
    TargetReachedExactly(plan, files);
    if !Current(plan, files, Dispatch) { NeverReachableEarlyExactly(plan, files); }
  }

  function AllOnes(): Files {
    map p | p in PathSet(ReviewHelpers()) + FinalReviewHelpers() + {Sudoers, Dispatch, AuthorizedKeys} :: [1]
  }

  function Halfway(): Files { (AllOnes() - {FinalReviewObservation})[Dispatch := [0]] }

  lemma HalfwayIsAdmitted()
    requires WellFormed(ReviewPlan(AllOnes(), {}))
    ensures Admitted(ReviewPlan(AllOnes(), {}), Halfway(), b => true)
  {
    hide ReviewHelpers;
  }

  /** A review host that refreshes into a dead end: everything is admitted, the
      new dispatcher is published, and one final-review helper is missing. */
  lemma ReviewHostCanPublishEarly()
    ensures var plan, files := ReviewPlan(AllOnes(), {}), Halfway();
      && ReviewManaged(AllOnes()) && WellFormed(plan) && Admitted(plan, files, b => true)
      && (var after := After(plan, files, PathSet(Order(plan)));
          Current(plan, after, Dispatch) && FinalReviewObservation !in after)
  {
    ReviewOmitsTheFinalReview(AllOnes(), {});
    ReviewHelpersAreDistinct();
    HalfwayIsAdmitted();
    var plan := ReviewPlan(AllOnes(), {});
    assert FinalReviewObservation in Omitted(plan);
    hide ReviewHelpers, Admitted, WellFormed;
    assert Order(plan)[|plan.helpers| + 1] == Dispatch;
  }
}
