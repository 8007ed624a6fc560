/** The deployed guest catalogue: a nested check whose counts add up to a
    one-to-one numbering of the episodes. */
module Catalogue {
  import opened Names
  import opened Lists

  /** A decoded episode, as far as the check reads it.  A field of the wrong
      JSON type is absent; `wellFormed` stands for the exact field set, the
      title's type and the guest cast, which are checked one by one. */
  datatype Episode = Episode(id: Option<string>, number: Option<int>, wellFormed: bool)

  datatype Season = Season(id: Option<string>, number: Option<int>, episodes: Option<seq<Episode>>, wellFormed: bool)

  function SeasonNumbers(): set<int> { {1, 2} }

  function Upto(n: nat): (numbers: set<int>)
    ensures |numbers| == n && forall k :: k in numbers <==> 1 <= k <= n
  {
    if n == 0 then {} else Upto(n - 1) + {n}
  }

  function EpisodeNumbers(): (numbers: set<int>)
    ensures |numbers| == 24 && forall k :: k in numbers <==> 1 <= k <= 24
  {
    Upto(24)
  }

  /** A canonical identifier. */
  type IdCheck = string -> bool

  predicate EpisodeOk(e: Episode, uuid: IdCheck) {
    e.wellFormed && e.id.Some? && uuid(e.id.value) && e.number.Some?
  }

  predicate SeasonOk(s: Season, uuid: IdCheck) {
    && s.wellFormed && s.id.Some? && uuid(s.id.value) && s.number.Some? && s.episodes.Some?
    && forall e :: e in s.episodes.value ==> EpisodeOk(e, uuid)
  }

  function Number(e: Episode): int { if e.number.Some? then e.number.value else 0 }

  function Id(e: Episode): string { if e.id.Some? then e.id.value else "" }

  function Numbers(es: seq<Episode>): seq<int> { seq(|es|, i requires 0 <= i < |es| => Number(es[i])) }

  function IdsOf(es: seq<Episode>): seq<string> { seq(|es|, i requires 0 <= i < |es| => Id(es[i])) }

  function EpisodesOf(s: Season): seq<Episode> { if s.episodes.Some? then s.episodes.value else [] }

  function NumberOf(s: Season): int { if s.number.Some? then s.number.value else 0 }

  function AllIds(seasons: seq<Season>): seq<string> {
    if seasons == [] then [] else AllIds(seasons[..|seasons| - 1]) + IdsOf(EpisodesOf(seasons[|seasons| - 1]))
  }

  predicate EpisodesComplete(s: Season) {
    ToSet(Numbers(EpisodesOf(s))) == EpisodeNumbers() && |EpisodesOf(s)| == 24
  }

  /** What the nested loops check. */
  predicate Accepted(seasons: seq<Season>, uuid: IdCheck) {
    && |seasons| == 2
    && (forall s :: s in seasons ==> SeasonOk(s, uuid) && EpisodesComplete(s))
    && Distinct(AllIds(seasons))
    && ToSet(SeasonNumbersOf(seasons)) == SeasonNumbers()
  }

  function SeasonNumbersOf(seasons: seq<Season>): seq<int> {
    seq(|seasons|, i requires 0 <= i < |seasons| => NumberOf(seasons[i]))
  }

  /** The inner loop: one season's episodes against the identifiers seen. */
  method CheckEpisodes(es: seq<Episode>, uuid: IdCheck, seen: seq<string>, known: set<string>)
    returns (ok: bool, ids: set<string>, numbers: seq<int>)
    requires known == ToSet(seen) && Distinct(seen)
    ensures ok <==> (forall e :: e in es ==> EpisodeOk(e, uuid)) && Distinct(seen + IdsOf(es))
    ensures ok ==> ids == ToSet(seen + IdsOf(es)) && numbers == Numbers(es)
  {
    ids, numbers := known, [];
    assert seen + IdsOf(es[..0]) == seen;
    for i := 0 to |es|
      invariant forall j :: 0 <= j < i ==> EpisodeOk(es[j], uuid)
      invariant Distinct(seen + IdsOf(es[..i])) && ids == ToSet(seen + IdsOf(es[..i]))
      invariant numbers == Numbers(es[..i])
    {
      var e := es[i];
      assert seen + IdsOf(es[..i + 1]) == seen + IdsOf(es[..i]) + [Id(e)];
      assert seen + IdsOf(es) == seen + IdsOf(es[..i + 1]) + IdsOf(es[i + 1..]);
      DistinctGrows(seen + IdsOf(es[..i]), Id(e));
      if !EpisodeOk(e, uuid) { return false, ids, numbers; }
      if e.id.value in ids {
        if Distinct(seen + IdsOf(es)) { DistinctPrefix(seen + IdsOf(es[..i + 1]), IdsOf(es[i + 1..])); }
        return false, ids, numbers;
      }
      assert ToSet(seen + IdsOf(es[..i + 1])) == ids + {Id(e)};
      assert Numbers(es[..i + 1]) == numbers + [Number(e)];
      ids, numbers := ids + {e.id.value}, numbers + [e.number.value];
    }
    assert es[..|es|] == es;
    ok := true;
  }

  lemma {:induction false} AllIdsPrefix(seasons: seq<Season>, n: nat) returns (rest: seq<string>)
    requires n <= |seasons|
    ensures AllIds(seasons) == AllIds(seasons[..n]) + rest
  {
    if n == |seasons| {
      assert seasons[..n] == seasons;
      rest := [];
    } else {
      assert seasons[..|seasons| - 1][..n] == seasons[..n];
      rest := AllIdsPrefix(seasons[..|seasons| - 1], n);
      rest := rest + IdsOf(EpisodesOf(seasons[|seasons| - 1]));
    }
  }

  lemma AllIdsGrow(seasons: seq<Season>, i: nat)
    requires i < |seasons|
    ensures AllIds(seasons[..i + 1]) == AllIds(seasons[..i]) + IdsOf(EpisodesOf(seasons[i]))
  {
    assert seasons[..i + 1][..i] == seasons[..i];
  }

  predicate SeasonShape(s: Season, uuid: IdCheck) {
    s.wellFormed && s.id.Some? && uuid(s.id.value) && s.number.Some? && s.episodes.Some?
  }

  /** One turn of the outer loop. */
  method CheckSeason(s: Season, uuid: IdCheck, seen: seq<string>, known: set<string>) returns (ok: bool, ids: set<string>)
    requires known == ToSet(seen) && Distinct(seen)
    ensures ok <==> SeasonOk(s, uuid) && EpisodesComplete(s) && Distinct(seen + IdsOf(EpisodesOf(s)))
    ensures ok ==> ids == ToSet(seen + IdsOf(EpisodesOf(s)))
  {
    hide Distinct, IdsOf, EpisodeNumbers, ToSet;
    if !SeasonShape(s, uuid) { return false, known; }
    var fine, all, numbers := CheckEpisodes(s.episodes.value, uuid, seen, known);
    if !fine { return false, known; }
    return ToSet(numbers) == EpisodeNumbers() && |numbers| == 24, all;
  }

  lemma NumbersGrow(seasons: seq<Season>, i: nat)
    requires i < |seasons|
    ensures SeasonNumbersOf(seasons[..i]) + [NumberOf(seasons[i])] == SeasonNumbersOf(seasons[..i + 1])
  {
  }

  lemma PrefixDistinct(seasons: seq<Season>, n: nat)
    requires n <= |seasons| && Distinct(AllIds(seasons))
    ensures Distinct(AllIds(seasons[..n]))
  {
    var rest := AllIdsPrefix(seasons, n);
    DistinctPrefix(AllIds(seasons[..n]), rest);
  }

  /** The outer loop. */
  method ValidateSeasons(seasons: seq<Season>, uuid: IdCheck) returns (ok: bool)
    ensures ok <==> Accepted(seasons, uuid)
  {
    hide Distinct, AllIds, IdsOf, EpisodeNumbers, SeasonOk, EpisodesComplete, SeasonNumbersOf;
    if |seasons| != 2 { return false; }
    var seasonNumbers: seq<int>, episodeIds: set<string> := [], {};
    NothingSeen(seasons);
    for i := 0 to |seasons|
      invariant forall j :: 0 <= j < i ==> SeasonOk(seasons[j], uuid) && EpisodesComplete(seasons[j])
      invariant Distinct(AllIds(seasons[..i])) && episodeIds == ToSet(AllIds(seasons[..i]))
      invariant seasonNumbers == SeasonNumbersOf(seasons[..i])
    {
      AllIdsGrow(seasons, i);
      NumbersGrow(seasons, i);
      var fine, ids := CheckSeason(seasons[i], uuid, AllIds(seasons[..i]), episodeIds);
      assert seasons[i] in seasons;
      if !fine {
        if Distinct(AllIds(seasons)) { PrefixDistinct(seasons, i + 1); }
        return false;
      }
      seasonNumbers, episodeIds := seasonNumbers + [NumberOf(seasons[i])], ids;
    }
    assert seasons[..|seasons|] == seasons;
    return ToSet(seasonNumbers) == SeasonNumbers();
  }

  lemma NothingSeen(seasons: seq<Season>)
    ensures AllIds(seasons[..0]) == [] && SeasonNumbersOf(seasons[..0]) == [] && Distinct<string>([])
  {
  }

  // ---------------------------------------------------------------- meaning

  /** The number pairs one season takes, and all of them. */
  function SlotsOf(s: Season): set<(int, int)> {
    set e | e in ToSet(Numbers(EpisodesOf(s))) :: (NumberOf(s), e)
  }

  function Slots(seasons: seq<Season>): set<(int, int)> {
    set s, p | s in seasons && p in SlotsOf(s) :: p
  }

  function FullGrid(): set<(int, int)> { set s, e | s in SeasonNumbers() && e in EpisodeNumbers() :: (s, e) }

  predicate AllOk(seasons: seq<Season>, uuid: IdCheck) { forall s :: s in seasons ==> SeasonOk(s, uuid) }

  lemma TwoSeasons(seasons: seq<Season>)
    requires |seasons| == 2
    ensures AllIds(seasons) == IdsOf(EpisodesOf(seasons[0])) + IdsOf(EpisodesOf(seasons[1]))
    ensures ToSet(SeasonNumbersOf(seasons)) == {NumberOf(seasons[0]), NumberOf(seasons[1])}
  {
    assert SeasonNumbersOf(seasons) == [NumberOf(seasons[0]), NumberOf(seasons[1])];
    assert seasons[..1][..0] == [] && seasons[..1][0] == seasons[0];
    assert AllIds(seasons[..1]) == IdsOf(EpisodesOf(seasons[0]));
  }

  lemma InSlotsOf(s: Season, n: int, e: int)
    ensures (n, e) in SlotsOf(s) <==> n == NumberOf(s) && e in ToSet(Numbers(EpisodesOf(s)))
  {
    hide Numbers, ToSet, NumberOf, EpisodesOf;
  }

  lemma InSlots(seasons: seq<Season>, p: (int, int))
    requires |seasons| == 2
    ensures p in Slots(seasons) <==> p in SlotsOf(seasons[0]) || p in SlotsOf(seasons[1])
  {
    hide SlotsOf;
    TwoMembers(seasons);
  }

  lemma SlotsOfTwo(seasons: seq<Season>, n: int, e: int)
    requires |seasons| == 2
    ensures (n, e) in Slots(seasons) <==>
      || (n == NumberOf(seasons[0]) && e in ToSet(Numbers(EpisodesOf(seasons[0]))))
      || (n == NumberOf(seasons[1]) && e in ToSet(Numbers(EpisodesOf(seasons[1]))))
  {
    hide *;
    InSlots(seasons, (n, e));
    InSlotsOf(seasons[0], n, e);
    InSlotsOf(seasons[1], n, e);
  }

  /** Acceptance is a counting fact that does not depend on any list order:
      two seasons of twenty-four well-formed episodes, forty-eight different
      identifiers, and every season and episode number pair taken. */
  lemma AcceptedExactly(seasons: seq<Season>, uuid: IdCheck)
    ensures Accepted(seasons, uuid) <==>
      && |seasons| == 2 && AllOk(seasons, uuid)
      && (forall s :: s in seasons ==> |EpisodesOf(s)| == 24)
      && |ToSet(AllIds(seasons))| == 48
      && Slots(seasons) == FullGrid()
  {
    hide Slots, FullGrid, AllIds, Numbers, SeasonOk, EpisodeNumbers, SeasonNumbers, Distinct, ToSet, IdsOf, SeasonNumbersOf;
    if |seasons| == 2 {
      TwoMembers(seasons);
      TwoSeasons(seasons);
      GridOfTwo(seasons);
      SizeOfSet(AllIds(seasons));
      IdsAdd(EpisodesOf(seasons[0]), EpisodesOf(seasons[1]));
      assert Accepted(seasons, uuid) <==>
        && SeasonOk(seasons[0], uuid) && EpisodesComplete(seasons[0]) && SeasonOk(seasons[1], uuid) && EpisodesComplete(seasons[1])
        && Distinct(AllIds(seasons)) && ToSet(SeasonNumbersOf(seasons)) == SeasonNumbers();
      assert AllOk(seasons, uuid) <==> SeasonOk(seasons[0], uuid) && SeasonOk(seasons[1], uuid);
      assert (forall s :: s in seasons ==> |EpisodesOf(s)| == 24) <==> |EpisodesOf(seasons[0])| == |EpisodesOf(seasons[1])| == 24;
    }
  }

  lemma IdsAdd(a: seq<Episode>, b: seq<Episode>)
    ensures |IdsOf(a) + IdsOf(b)| == |a| + |b|
  {
  }

  lemma TwoMembers(seasons: seq<Season>)
    requires |seasons| == 2
    ensures forall s :: s in seasons <==> s == seasons[0] || s == seasons[1]
  {
  }

  lemma GridOfTwo(seasons: seq<Season>)
    requires |seasons| == 2
    ensures Slots(seasons) == FullGrid() <==>
      && {NumberOf(seasons[0]), NumberOf(seasons[1])} == SeasonNumbers()
      && ToSet(Numbers(EpisodesOf(seasons[0]))) == EpisodeNumbers() && ToSet(Numbers(EpisodesOf(seasons[1]))) == EpisodeNumbers()
  {
    var (n0, es0) := (NumberOf(seasons[0]), ToSet(Numbers(EpisodesOf(seasons[0]))));
    var (n1, es1) := (NumberOf(seasons[1]), ToSet(Numbers(EpisodesOf(seasons[1]))));
    forall n, e { SlotsOfTwo(seasons, n, e); }
    hide Slots, FullGrid, Numbers, ToSet, EpisodeNumbers;
    FullFromGrid(n0, es0, n1, es1, Slots(seasons));
    GridFromFull(n0, es0, n1, es1, Slots(seasons));
  }

  lemma InGrid(n: int, e: int)
    ensures (n, e) in FullGrid() <==> n in SeasonNumbers() && e in EpisodeNumbers()
  {
    hide EpisodeNumbers;
  }

  lemma FullFromGrid(n0: int, es0: set<int>, n1: int, es1: set<int>, slots: set<(int, int)>)
    requires forall n, e :: (n, e) in slots <==> (n == n0 && e in es0) || (n == n1 && e in es1)
    ensures slots == FullGrid() ==> {n0, n1} == SeasonNumbers() && es0 == EpisodeNumbers() && es1 == EpisodeNumbers()
  {
    forall n, e { InGrid(n, e); }
    hide FullGrid, EpisodeNumbers;
    if slots == FullGrid() {
      assert (1, 1) in slots && (2, 1) in slots;
      assert n0 in {1, 2} && n1 in {1, 2} && n0 != n1;
      forall e ensures e in es0 <==> e in EpisodeNumbers() { assert (n0, e) in slots <==> (n0, e) in FullGrid(); }
      forall e ensures e in es1 <==> e in EpisodeNumbers() { assert (n1, e) in slots <==> (n1, e) in FullGrid(); }
    }
  }

  /** Two numbered sets fill the grid when the numbers are one and two and each
      set is full. */
  lemma GridFromFull(n0: int, es0: set<int>, n1: int, es1: set<int>, slots: set<(int, int)>)
    requires forall n, e :: (n, e) in slots <==> (n == n0 && e in es0) || (n == n1 && e in es1)
    ensures {n0, n1} == SeasonNumbers() && es0 == EpisodeNumbers() && es1 == EpisodeNumbers() ==> slots == FullGrid()
  {
    forall n, e { InGrid(n, e); }
    hide FullGrid, EpisodeNumbers;
    if {n0, n1} == SeasonNumbers() && es0 == EpisodeNumbers() && es1 == EpisodeNumbers() {
      forall n ensures n in SeasonNumbers() <==> n == n0 || n == n1 { assert n in {n0, n1} <==> n in SeasonNumbers(); }
      hide SeasonNumbers;
      forall p: (int, int) ensures p in slots <==> p in FullGrid() {
        var (n, e) := (p.0, p.1);
        assert (n, e) in slots <==> (n == n0 && e in es0) || (n == n1 && e in es1);
        assert (n, e) in FullGrid() <==> n in SeasonNumbers() && e in EpisodeNumbers();
      }
    }
  }

  /** In an accepted catalogue the episodes, their identifiers and their
      numbers correspond one to one. */
  lemma OneEpisodePerSlot(seasons: seq<Season>, uuid: IdCheck, i: nat, j: nat, k: nat, l: nat)
    requires Accepted(seasons, uuid) && i < 2 && k < 2 && j < 24 && l < 24
    ensures |EpisodesOf(seasons[i])| == |EpisodesOf(seasons[k])| == 24
    ensures var (a, b) := (EpisodesOf(seasons[i])[j], EpisodesOf(seasons[k])[l]);
      && (Id(a) == Id(b) <==> i == k && j == l)
      && ((NumberOf(seasons[i]), Number(a)) == (NumberOf(seasons[k]), Number(b)) <==> i == k && j == l)
  {
    hide EpisodeNumbers;
    assert seasons[i] in seasons && seasons[k] in seasons && seasons[0] in seasons && seasons[1] in seasons;
    TwoSeasons(seasons);
    SeasonsDiffer(seasons, uuid);
    NumbersDiffer(EpisodesOf(seasons[i]));
    IdsDiffer(EpisodesOf(seasons[0]), EpisodesOf(seasons[1]), i, j, k, l);
    hide Accepted, AllIds, Distinct, Numbers, IdsOf;
  }

  lemma SeasonsDiffer(seasons: seq<Season>, uuid: IdCheck)
    requires Accepted(seasons, uuid)
    ensures NumberOf(seasons[0]) != NumberOf(seasons[1])
  {
    TwoSeasons(seasons);
    assert 1 in SeasonNumbers() && 2 in SeasonNumbers();
    hide AllIds, Distinct, EpisodeNumbers, SeasonOk;
  }

  lemma NumbersDiffer(es: seq<Episode>)
    requires |es| == 24 && ToSet(Numbers(es)) == EpisodeNumbers()
    ensures forall j, l :: 0 <= j < 24 && 0 <= l < 24 && Number(es[j]) == Number(es[l]) ==> j == l
  {
    var ns := Numbers(es);
    SizeOfSet(ns);
    hide EpisodeNumbers, ToSet;
    forall j, l | 0 <= j < 24 && 0 <= l < 24 && Number(es[j]) == Number(es[l]) ensures j == l {
      assert ns[j] == ns[l];
    }
  }

  lemma IdsDiffer(a: seq<Episode>, b: seq<Episode>, i: nat, j: nat, k: nat, l: nat)
    requires |a| == |b| == 24 && Distinct(IdsOf(a) + IdsOf(b)) && i < 2 && k < 2 && j < 24 && l < 24
    ensures Id(if i == 0 then a[j] else b[j]) == Id(if k == 0 then a[l] else b[l]) <==> i == k && j == l
  {
    var ids := IdsOf(a) + IdsOf(b);
    var (x, y) := (if i == 0 then j else 24 + j, if k == 0 then l else 24 + l);
    assert ids[x] == Id(if i == 0 then a[j] else b[j]) && ids[y] == Id(if k == 0 then a[l] else b[l]);
    if x < y { assert ids[x] != ids[y]; }
    if y < x { assert ids[y] != ids[x]; }
  }

  predicate HasNumber(es: seq<Episode>, k: int) { exists e :: e in es && e.number == Some(k) }

  /** What an accepted catalogue holds, field by field. */
  lemma AcceptedHolds(seasons: seq<Season>, uuid: IdCheck)
    requires Accepted(seasons, uuid)
    ensures |seasons| == 2
    ensures forall s :: s in seasons ==>
      && s.wellFormed && s.id.Some? && uuid(s.id.value) && s.episodes.Some? && |s.episodes.value| == 24
      && (s.number == Some(1) || s.number == Some(2))
      && (forall k :: 1 <= k <= 24 ==> HasNumber(s.episodes.value, k))
      && (forall e :: e in s.episodes.value ==>
            e.wellFormed && e.id.Some? && uuid(e.id.value) && e.number.Some? && 1 <= e.number.value <= 24)
    ensures {seasons[0].number, seasons[1].number} == {Some(1), Some(2)}
  {
    hide Distinct, AllIds, EpisodeNumbers, Numbers, ToSet, SeasonNumbersOf;
    SeasonsNumbered(seasons, uuid);
    forall s | s in seasons
      ensures |s.episodes.value| == 24
      ensures forall k :: 1 <= k <= 24 ==> HasNumber(s.episodes.value, k)
      ensures forall e :: e in s.episodes.value ==> 1 <= e.number.value <= 24
    {
      EpisodesHold(s, uuid);
    }
  }

  lemma SeasonsNumbered(seasons: seq<Season>, uuid: IdCheck)
    requires Accepted(seasons, uuid)
    ensures |seasons| == 2 && {seasons[0].number, seasons[1].number} == {Some(1), Some(2)}
    ensures forall s :: s in seasons ==> s.number == Some(1) || s.number == Some(2)
  {
    hide Distinct, AllIds, EpisodeNumbers, Numbers, EpisodesComplete;
    assert seasons[0] in seasons && seasons[1] in seasons;
    var numbers := SeasonNumbersOf(seasons);
    assert numbers == [NumberOf(seasons[0]), NumberOf(seasons[1])];
    assert numbers[0] in ToSet(numbers) && numbers[1] in ToSet(numbers);
    assert 1 in ToSet(numbers) && 2 in ToSet(numbers);
  }

  lemma EpisodesHold(s: Season, uuid: IdCheck)
    requires SeasonOk(s, uuid) && EpisodesComplete(s)
    ensures forall k :: 1 <= k <= 24 ==> HasNumber(s.episodes.value, k)
    ensures forall e :: e in s.episodes.value ==> 1 <= e.number.value <= 24
  {
    hide Numbers, ToSet, IdsOf, EpisodeNumbers;
    var es := s.episodes.value;
    assert ToSet(Numbers(es)) == EpisodeNumbers();
    forall k | 1 <= k <= 24
      ensures HasNumber(es, k)
    {
      assert k in EpisodeNumbers();
      var e := NumberedEpisode(es, k, uuid);
    }
    forall e | e in es
      ensures 1 <= e.number.value <= 24
    {
      EpisodeIsNumbered(es, e);
    }
  }

  lemma NumberedEpisode(es: seq<Episode>, k: int, uuid: IdCheck) returns (e: Episode)
    requires k in ToSet(Numbers(es)) && forall e :: e in es ==> EpisodeOk(e, uuid)
    ensures e in es && e.number == Some(k)
  {
    var i :| 0 <= i < |es| && Numbers(es)[i] == k;
    e := es[i];
    assert EpisodeOk(e, uuid);
  }

  lemma EpisodeIsNumbered(es: seq<Episode>, e: Episode)
    requires e in es && e.number.Some?
    ensures e.number.value in ToSet(Numbers(es))
  {
    var i :| 0 <= i < |es| && es[i] == e;
    assert Numbers(es)[i] in Numbers(es);
  }
}
