/** When a run directory can be read: exactly when each of its files is in
    size and the sizes, added up, fit. */
module RunSizes {
  import opened Names
  import opened Groups
  import opened RunState
  import opened Files
  import opened PrimaryProcessing
  import opened HandOff
  import opened Chain
  import opened RunDisk
  import opened RunMachine
  import opened RunSafety

  // ------------------------------------------------------- disjoint merges

  lemma {:induction false} TotalDisjoint(a: Contents, b: Contents)
    requires a.Keys !! b.Keys
    ensures Total(a + b) == Total(a) + Total(b)
    decreases |b|
  {
    hide Total;
    NothingWeighsNothing<string>();
    if b == map[] {
      assert a + b == a;
    } else {
      var k :| k in b;
      TotalRemove(b, k);
      TotalRemove(a + b, k);
      UnionMinus(a, b, k);
      NothingToRemove(a, k);
      TotalDisjoint(a, b - {k});
    }
  }

  lemma NothingToRemove(a: Contents, k: string)
    requires k !in a
    ensures a - {k} == a
  {
  }

  lemma SizedDisjoint(a: Contents, b: Contents)
    requires a.Keys !! b.Keys
    ensures Sized(a + b) <==> Sized(a) && Sized(b)
  {
    if Sized(a + b) {
      forall k | k in a
        ensures 0 < |a[k]| <= FILE_MAX
      {
        assert k in a + b && (a + b)[k] == a[k];
      }
      forall k | k in b
        ensures 0 < |b[k]| <= FILE_MAX
      {
        assert k in a + b && (a + b)[k] == b[k];
      }
    }
  }

  /** No file goes by an adjudication part's name of this kind. */
  ghost predicate Free(m: Contents, k: Kind) { forall p: nat :: PartName(Adjudication, p, k) !in m }

  lemma FreeUnion(a: Contents, b: Contents, k: Kind)
    requires Free(a, k) && Free(b, k)
    ensures Free(a + b, k)
  {
    hide PartName;
  }

  lemma FreeIsDisjoint(a: Contents, k: Kind, m: map<nat, Bytes>)
    requires Free(a, k)
    ensures a.Keys !! Filed(k, m).Keys
  {
    hide PartName, Filed;
    forall n | n in Filed(k, m)
      ensures n !in a
    {
      var p := PartOf(k, m, n);
    }
  }

  lemma FiledIsFree(k: Kind, m: map<nat, Bytes>, k': Kind)
    requires k != k'
    ensures Free(Filed(k, m), k')
  {
    hide PartName, Filed;
    forall p: nat
      ensures PartName(Adjudication, p, k') !in Filed(k, m)
    {
      if PartName(Adjudication, p, k') in Filed(k, m) {
        var q := PartOf(k, m, PartName(Adjudication, p, k'));
        PartNamesInjective(Adjudication, p, k', Adjudication, q, k);
      }
    }
  }

  lemma FiledIsNotFixed(k: Kind, m: map<nat, Bytes>, name: string)
    requires IsFixedName(name)
    ensures name !in Filed(k, m)
  {
    hide PartName, Filed, IsFixedName;
    if name in Filed(k, m) {
      var p := PartOf(k, m, name);
      PartIsNotFixed(Adjudication, p, k);
    }
  }

  lemma BaseIsFree(w: World, k: Kind)
    requires Inherited(w)
    ensures Free(w.disk.base, k)
  {
    hide PartName, PrimaryFiles, PrimaryErrors, PrimaryDerived, IsFixedName;
    forall p: nat
      ensures PartName(Adjudication, p, k) !in w.disk.base
    {
      NotPrimary(w.state, p, k);
      PartIsNotFixed(Adjudication, p, k);
      PrimaryDerivedIsFixed(PartName(Adjudication, p, k));
      assert PartName(Adjudication, p, k) in w.disk.base ==> PartName(Adjudication, p, k) in BaseNames(w.disk);
    }
  }

  lemma PrimaryDerivedIsFixed(n: string)
    ensures n in PrimaryDerived() ==> IsFixedName(n)
  {
  }

  /** The failure evidence is none of the files earlier stages left. */
  lemma BaseHasNoTerminal(w: World)
    requires Inherited(w)
    ensures TERMINAL_ERRORS !in w.disk.base
  {
    hide PrimaryFiles, PrimaryErrors, PrimaryDerived, IsFixedName;
    TerminalIsNoSource();
    FixedNotInPrimary(TERMINAL_ERRORS, w.state);
    assert TERMINAL_ERRORS in w.disk.base ==> TERMINAL_ERRORS in BaseNames(w.disk);
  }

  // -------------------------------------------------------- the directory

  /** The files of all parts merged into `a`. */
  ghost function WithParts(a: Contents, d: Disk): Contents {
    a + Filed(Request, d.requests) + Filed(Intent, IntentBytes(d.intents)) + Filed(Completed, CompletionBytes(d.completions))
    + Filed(Output, d.outputs) + Filed(ApiErrors, d.errors)
  }

  ghost predicate PartsSized(d: Disk) {
    && Sized(d.requests) && Sized(IntentBytes(d.intents)) && Sized(CompletionBytes(d.completions))
    && Sized(d.outputs) && Sized(d.errors)
  }

  lemma FiledSizes(k: Kind, m: map<nat, Bytes>)
    ensures Sized(Filed(k, m)) <==> Sized(m)
  {
    hide Filed, PartName;
    if Sized(m) { SizedFiled(k, m); }
    if Sized(Filed(k, m)) {
      forall p | p in m
        ensures 0 < |m[p]| <= FILE_MAX
      {
        FiledAt(k, m, p);
      }
    }
  }

  /** One more kind, whose names are free so far. */
  lemma AddKind(a: Contents, k: Kind, m: map<nat, Bytes>)
    requires Free(a, k)
    ensures Total(a + Filed(k, m)) == Total(a) + Total(m)
    ensures Sized(a + Filed(k, m)) <==> Sized(a) && Sized(m)
    ensures forall k' :: k' != k && Free(a, k') ==> Free(a + Filed(k, m), k')
  {
    hide Filed, Sized, Total, Free;
    FreeIsDisjoint(a, k, m);
    TotalDisjoint(a, Filed(k, m));
    SizedDisjoint(a, Filed(k, m));
    FiledTotal(k, m);
    FiledSizes(k, m);
    forall k' | k' != k && Free(a, k')
      ensures Free(a + Filed(k, m), k')
    {
      FiledIsFree(k, m, k');
      FreeUnion(a, Filed(k, m), k');
    }
  }

  lemma AddParts(a: Contents, d: Disk)
    requires forall k :: Free(a, k)
    ensures var all := WithParts(a, d);
      && Total(all) == Total(a) + Total(d.requests) + Total(IntentBytes(d.intents)) + Total(CompletionBytes(d.completions))
                       + Total(d.outputs) + Total(d.errors)
      && (Sized(all) <==> Sized(a) && PartsSized(d))
  {
    hide Filed, Sized, Total, Free, IntentBytes, CompletionBytes;
    var b := a + Filed(Request, d.requests);
    var c := b + Filed(Intent, IntentBytes(d.intents));
    var e := c + Filed(Completed, CompletionBytes(d.completions));
    var f := e + Filed(Output, d.outputs);
    AddKind(a, Request, d.requests);
    AddKind(b, Intent, IntentBytes(d.intents));
    AddKind(c, Completed, CompletionBytes(d.completions));
    AddKind(e, Output, d.outputs);
    AddKind(f, ApiErrors, d.errors);
  }

  lemma PartsLack(a: Contents, d: Disk, name: string)
    requires IsFixedName(name) && name !in a
    ensures name !in WithParts(a, d)
  {
    hide Filed, IntentBytes, CompletionBytes, IsFixedName;
    FiledIsNotFixed(Request, d.requests, name);
    FiledIsNotFixed(Intent, IntentBytes(d.intents), name);
    FiledIsNotFixed(Completed, CompletionBytes(d.completions), name);
    FiledIsNotFixed(Output, d.outputs, name);
    FiledIsNotFixed(ApiErrors, d.errors, name);
  }

  lemma AddTerminal(a: Contents, t: Option<Bytes>)
    requires TERMINAL_ERRORS !in a
    ensures Total(a + TerminalFile(t)) == Total(a) + Total(TerminalFile(t))
    ensures Sized(a + TerminalFile(t)) <==> Sized(a) && Sized(TerminalFile(t))
    ensures RUN_STATE !in a ==> RUN_STATE !in a + TerminalFile(t)
  {
    TotalDisjoint(a, TerminalFile(t));
    SizedDisjoint(a, TerminalFile(t));
    TerminalIsNoSource();
  }

  lemma AddState(a: Contents, raw: Bytes)
    requires RUN_STATE !in a
    ensures Readable(a + map[RUN_STATE := raw], Limit) <==>
      Sized(a) && 0 < |raw| <= STATE_MAX && Total(a) + |raw| <= TOTAL_MAX
  {
    hide Total;
    var all := a + map[RUN_STATE := raw];
    assert all == a[RUN_STATE := raw];
    TotalInsert(a, RUN_STATE, raw);
    if Readable(all, Limit) {
      forall n | n in a
        ensures 0 < |a[n]| <= FILE_MAX
      {
        assert n in all && all[n] == a[n] && n != RUN_STATE;
      }
      assert all[RUN_STATE] == raw;
    }
  }

  /** A run directory can be read exactly when every file is non-empty and
      within its limit and the sizes, added up, are within the total. */
  lemma ReadableExactly(w: World)
    requires Inherited(w)
    ensures DiskReadable(w.disk) <==> AllSized(w.disk) && Load(w.disk) + |w.disk.stateFile| <= TOTAL_MAX
  {
    var (d, all) := (w.disk, WithParts(w.disk.base, w.disk));
    assert RUN_STATE !in d.base;
    forall k { BaseIsFree(w, k); }
    BaseHasNoTerminal(w);
    hide Inherited, Sized, Total, Free, IntentBytes, CompletionBytes, TerminalFile, Readable, WithParts, DiskFiles, Filed;
    FilesInLayers(d);
    TerminalIsNoSource();
    AddParts(d.base, d);
    PartsLack(d.base, d, TERMINAL_ERRORS);
    PartsLack(d.base, d, RUN_STATE);
    AddTerminal(all, d.terminal);
    AddState(all + TerminalFile(d.terminal), d.stateFile);
  }

  lemma FilesInLayers(d: Disk)
    ensures DiskFiles(d) == WithParts(d.base, d) + TerminalFile(d.terminal) + map[RUN_STATE := d.stateFile]
  {
    hide Filed, IntentBytes, CompletionBytes, TerminalFile;
  }
}
