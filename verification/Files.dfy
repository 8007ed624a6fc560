/** Reading a run directory: size limits, the byte total, and the loop that
    sorts files into groups. */
module Files {
  import opened Names
  import opened Groups
  import opened RunState

  const STATE_MAX: nat := 64 * 1024
  const FILE_MAX: nat := 64 * 1024 * 1024
  const TOTAL_MAX: nat := 256 * 1024 * 1024

  /** The workflow's own bounds on a request, or an output it reads back, and
      on a journal record. */
  const REQUEST_MAX: nat := 32 * 1024 * 1024
  const RECORD_MAX: nat := 4096

  type Contents = map<string, Bytes>

  /** The sum of all file sizes, whatever order they are read in. */
  ghost function Total<K>(m: map<K, Bytes>): nat {
    if m == map[] then 0 else
    var k :| k in m;
    |m[k]| + Total(m - {k})
  }

  lemma {:induction false} TotalRemove<K>(m: map<K, Bytes>, k: K)
    requires k in m
    ensures Total(m) == |m[k]| + Total(m - {k})
    decreases |m|
  {
    var j :| j in m && Total(m) == |m[j]| + Total(m - {j});
    if j != k {
      TotalRemove(m - {j}, k);
      TotalRemove(m - {k}, j);
      assert m - {j} - {k} == m - {k} - {j};
    }
  }

  /** Each file is non-empty and within its own limit; together they fit. */
  ghost predicate Readable(disk: Contents, limit: string -> nat) {
    && (forall n :: n in disk ==> 0 < |disk[n]| <= limit(n))
    && Total(disk) <= TOTAL_MAX
    && RUN_STATE in disk
  }

  function Of(contents: Contents, rule: string -> Group, g: Group): Contents {
    map n | n in contents && rule(n) == g :: contents[n]
  }

  datatype Sorted = Sorted(state: Bytes, artifacts: Contents, requests: Contents,
                           journals: Contents, outputs: Contents, derived: Contents)

  function SortedBy(contents: Contents, rule: string -> Group): Sorted
    requires RUN_STATE in contents
  {
    Sorted(contents[RUN_STATE], Of(contents, rule, Artifacts), Of(contents, rule, Requests),
           Of(contents, rule, Journals), Of(contents, rule, Outputs), Of(contents, rule, Derived))
  }

  /** The rule keeps exactly the state file apart. */
  ghost predicate KeepsStateApart(rule: string -> Group) {
    forall n :: rule(n) == StateFile <==> n == RUN_STATE
  }

  /** Reads every file, refusing an empty or oversized one and a directory
      whose byte total passes the cap. */
  method ReadAll(disk: Contents, limit: string -> nat) returns (r: Option<Contents>)
    ensures r.Some? <==> Readable(disk, limit)
    ensures r.Some? ==> r.value == disk
  {
    var total, contents: Contents, pending := 0, map[], disk.Keys;
    while pending != {}
      invariant pending <= disk.Keys
      invariant contents == map n | n in disk && n !in pending :: disk[n]
      invariant total == Total(contents) <= TOTAL_MAX
      invariant forall n :: n in contents ==> 0 < |disk[n]| <= limit(n)
    {
      var name :| name in pending;
      var raw := disk[name];
      TotalMonotone(contents, disk, name);
      if |raw| == 0 || |raw| > limit(name) { return None; }
      total := total + |raw|;
      if total > TOTAL_MAX { return None; }
      pending, contents := pending - {name}, contents[name := raw];
    }
    assert contents == disk;
    return if RUN_STATE in contents then Some(contents) else None;
  }

  lemma OfInsert(m: Contents, rule: string -> Group, g: Group, name: string, raw: Bytes)
    requires name !in m
    ensures Of(m[name := raw], rule, g) ==
            if rule(name) == g then Of(m, rule, g)[name := raw] else Of(m, rule, g)
  {
  }

  /** Files every name under its group. */
  method SortFiles(contents: Contents, rule: string -> Group) returns (r: Sorted)
    requires KeepsStateApart(rule) && RUN_STATE in contents
    ensures r == SortedBy(contents, rule)
  {
    var seen: Contents, pending := map[], contents.Keys;
    r := Sorted(contents[RUN_STATE], map[], map[], map[], map[], map[]);
    while pending != {}
      invariant pending <= contents.Keys
      invariant seen == map n | n in contents && n !in pending :: contents[n]
      invariant r.state == contents[RUN_STATE]
      invariant r.artifacts == Of(seen, rule, Artifacts) && r.requests == Of(seen, rule, Requests)
      invariant r.journals == Of(seen, rule, Journals) && r.outputs == Of(seen, rule, Outputs)
      invariant r.derived == Of(seen, rule, Derived)
    {
      var name :| name in pending;
      var raw := contents[name];
      forall g { OfInsert(seen, rule, g, name, raw); }
      match rule(name) {
        case StateFile =>
        case Artifacts => r := r.(artifacts := r.artifacts[name := raw]);
        case Requests => r := r.(requests := r.requests[name := raw]);
        case Journals => r := r.(journals := r.journals[name := raw]);
        case Outputs => r := r.(outputs := r.outputs[name := raw]);
        case Derived => r := r.(derived := r.derived[name := raw]);
      }
      pending, seen := pending - {name}, seen[name := raw];
    }
    assert seen == contents;
  }

  lemma TotalMonotone(seen: Contents, disk: Contents, name: string)
    requires seen.Keys < disk.Keys && name in disk && name !in seen
    requires forall n :: n in seen ==> seen[n] == disk[n]
    ensures Total(seen[name := disk[name]]) == Total(seen) + |disk[name]| <= Total(disk)
  {
    var more := seen[name := disk[name]];
    TotalRemove(more, name);
    assert more - {name} == seen;
    TotalSubset(more, disk);
  }

  lemma {:induction false} TotalSubset<K>(m: map<K, Bytes>, disk: map<K, Bytes>)
    requires m.Keys <= disk.Keys && forall n :: n in m ==> m[n] == disk[n]
    ensures Total(m) <= Total(disk)
    decreases |m|
  {
    if m != map[] {
      var k :| k in m;
      TotalRemove(m, k);
      TotalRemove(disk, k);
      TotalSubset(m - {k}, disk - {k});
    }
  }

  /** One more file adds its size. */
  lemma TotalInsert<K>(m: map<K, Bytes>, k: K, raw: Bytes)
    requires k !in m
    ensures Total(m[k := raw]) == Total(m) + |raw|
  {
    TotalRemove(m[k := raw], k);
    assert m[k := raw] - {k} == m;
  }

  /** Merging two sets of files adds up no more than both. */
  lemma {:induction false} TotalUnion<K>(a: map<K, Bytes>, b: map<K, Bytes>)
    ensures Total(a + b) <= Total(a) + Total(b)
    decreases |b|
  {
    hide Total;
    if b == map[] {
      assert a + b == a;
      NothingWeighsNothing<K>();
    } else {
      var k :| k in b;
      TotalRemove(b, k);
      TotalRemove(a + b, k);
      TotalSubset(a - {k}, a);
      TotalUnion(a - {k}, b - {k});
      UnionMinus(a, b, k);
    }
  }

  lemma NothingWeighsNothing<K>()
    ensures Total<K>(map[]) == 0
  {
  }

  lemma UnionMinus<K>(a: map<K, Bytes>, b: map<K, Bytes>, k: K)
    requires k in b
    ensures k in a + b && (a + b)[k] == b[k] && (a + b) - {k} == (a - {k}) + (b - {k})
  {
    forall x
      ensures x in (a + b) - {k} <==> x in (a - {k}) + (b - {k})
    {
    }
  }

  /** Nothing is lost and nothing is filed twice: every file is the state file
      or lies, unchanged, in exactly one group. */
  lemma SortingPartitions(contents: Contents, rule: string -> Group)
    requires KeepsStateApart(rule) && RUN_STATE in contents
    ensures forall n :: n in contents <==> (n == RUN_STATE || exists g :: n in Of(contents, rule, g))
    ensures forall n, g :: n in Of(contents, rule, g) ==>
      Of(contents, rule, g)[n] == contents[n] && forall g' :: n in Of(contents, rule, g') ==> g == g'
  {
    forall n | n in contents
      ensures exists g :: n in Of(contents, rule, g)
    {
      assert n in Of(contents, rule, rule(n));
    }
  }

  /** The sorted groups determine the directory. */
  lemma GroupsDetermineContents(a: Contents, b: Contents, rule: string -> Group)
    requires KeepsStateApart(rule) && RUN_STATE in a && RUN_STATE in b
    requires SortedBy(a, rule) == SortedBy(b, rule)
    ensures a == b
  {
    SameGroups(a, b, rule);
    SameGroups(b, a, rule);
  }

  lemma SameGroups(a: Contents, b: Contents, rule: string -> Group)
    requires KeepsStateApart(rule) && RUN_STATE in a && RUN_STATE in b
    requires SortedBy(a, rule) == SortedBy(b, rule)
    ensures forall n :: n in a ==> n in b && a[n] == b[n]
  {
    forall n | n in a
      ensures n in b && a[n] == b[n]
    {
      var g := rule(n);
      if g != StateFile {
        assert n in Of(a, rule, g) && Of(a, rule, g) == Of(b, rule, g);
      }
    }
  }
}
