/** The paths of a decoded manifest: what the decoder lets through, and what
    the workspace check may therefore rely on. */
module ManifestPaths {
  import opened Names
  import opened Order
  import opened Digest
  import opened Utf8Order
  import opened Workspace

  /** What stays a parameter: whether a name is portable, whether a path is
      short enough, and case folding. */
  datatype Rules = Rules(portable: string -> bool, fits: string -> bool, fold: string -> string)

  /** The pieces between slashes, empty ones included. */
  function Split(text: string, current: string): seq<string>
    decreases |text|
  {
    if text == "" then [current]
    else if text[0] == '/' then [current] + Split(text[1..], "")
    else Split(text[1..], current + [text[0]])
  }

  predicate IsDrive(text: string) {
    |text| >= 2 && ('A' <= text[0] <= 'Z' || 'a' <= text[0] <= 'z') && text[1] == ':'
  }

  predicate PathOk(text: string, rules: Rules) {
    && text != "" && '\\' !in text && text[0] != '/' && !IsDrive(text)
    && (forall piece :: piece in Split(text, "") ==> piece !in {"", ".", ".."})
    && text == AsPosix(Parse(text)) && rules.fits(text)
    && forall piece :: piece in Split(text, "") ==> rules.portable(piece)
  }

  /** Paths are compared by their encoded bytes. */
  predicate BytesBelow(a: string, b: string) { Below(ByteLess, Encode(a), Encode(b)) }

  /** The paths of the entries: each one valid, all in increasing order, no two
      alike up to case. */
  predicate PathsOk(entries: seq<string>, rules: Rules) {
    && (forall i :: 0 <= i < |entries| ==> PathOk(entries[i], rules))
    && (forall i :: 0 < i < |entries| ==> BytesBelow(entries[i - 1], entries[i]))
    && (forall i, j :: 0 <= i < j < |entries| ==> rules.fold(entries[i]) != rules.fold(entries[j]))
  }

  function Folded(entries: seq<string>, rules: Rules): set<string> { set t | t in entries :: rules.fold(t) }

  function Paths(entries: seq<string>): set<string> { set t | t in entries }

  /** The decoder's loop over the entries, as far as it reads their paths. */
  method DecodePaths(entries: seq<string>, rules: Rules) returns (r: Option<set<string>>)
    ensures r.Some? <==> PathsOk(entries, rules)
    ensures r.Some? ==> r.value == Paths(entries) && |r.value| == |entries| && Relative(r.value)
  {
    hide PathOk, BytesBelow, PathsOk, Folded, Paths;
    NoEntries(rules);
    var previous: string, folded: set<string>, files: set<string> := "", {}, {};
    for i := 0 to |entries|
      invariant PathsOk(entries[..i], rules)
      invariant previous == if i == 0 then "" else entries[i - 1]
      invariant folded == Folded(entries[..i], rules)
      invariant files == Paths(entries[..i]) && |files| == i
    {
      var path := entries[i];
      if PathsOk(entries, rules) { EachIsOk(entries, i, rules); }
      if NextOk(entries, i, rules) { OneMoreIsOk(entries, i, rules); }
      if !PathOk(path, rules) { return None; }
      EmptyIsBelow(path, rules);
      if !BytesBelow(previous, path) || rules.fold(path) in folded { return None; }
      OneMoreEntry(entries, i, rules);
      previous, folded, files := path, folded + {rules.fold(path)}, files + {path};
    }
    assert entries[..|entries|] == entries;
    PathsAreRelative(entries, rules);
    return Some(files);
  }

  lemma NoEntries(rules: Rules)
    ensures PathsOk([], rules) && Folded([], rules) == {} && Paths([]) == {}
  {
  }

  lemma OneMoreEntry(entries: seq<string>, i: nat, rules: Rules)
    requires i < |entries|
    ensures Folded(entries[..i + 1], rules) == Folded(entries[..i], rules) + {rules.fold(entries[i])}
    ensures Paths(entries[..i + 1]) == Paths(entries[..i]) + {entries[i]}
    ensures entries[i] in Paths(entries[..i]) ==> rules.fold(entries[i]) in Folded(entries[..i], rules)
  {
    assert entries[..i + 1] == entries[..i] + [entries[i]];
  }

  lemma EmptyIsBelow(path: string, rules: Rules)
    requires PathOk(path, rules)
    ensures BytesBelow("", path)
  {
    EncodedNonEmpty(path);
  }

  /** What the loop checks of one entry. */
  predicate NextOk(entries: seq<string>, i: nat, rules: Rules)
    requires i < |entries|
  {
    && PathOk(entries[i], rules) && (i > 0 ==> BytesBelow(entries[i - 1], entries[i]))
    && rules.fold(entries[i]) !in Folded(entries[..i], rules)
  }

  lemma EachIsOk(entries: seq<string>, i: nat, rules: Rules)
    requires i < |entries| && PathsOk(entries, rules)
    ensures NextOk(entries, i, rules)
  {
    hide PathOk, BytesBelow;
  }

  lemma OneMoreIsOk(entries: seq<string>, i: nat, rules: Rules)
    requires i < |entries| && PathsOk(entries[..i], rules) && NextOk(entries, i, rules)
    ensures PathsOk(entries[..i + 1], rules)
  {
    hide PathOk, BytesBelow;
    var (a, b) := (entries[..i], entries[..i + 1]);
    assert forall j :: 0 <= j < i ==> a[j] == b[j];
    forall j | 0 <= j < i
      ensures rules.fold(b[j]) != rules.fold(b[i])
    {
      assert a[j] in a;
    }
  }

  lemma PathsAreRelative(entries: seq<string>, rules: Rules)
    requires PathsOk(entries, rules)
    ensures Relative(Paths(entries))
  {
    hide Components, AsPosix, Split, BytesBelow;
  }

  /** The order of an accepted manifest is also the order of code points, in
      which the digests list their files. */
  lemma PathsAreSorted(entries: seq<string>, rules: Rules)
    requires PathsOk(entries, rules)
    ensures forall i, j :: 0 <= i < j < |entries| ==> Below(CharLess, entries[i], entries[j])
  {
    hide PathOk, Below, Encode;
    forall i, j | 0 <= i < j < |entries|
      ensures Below(CharLess, entries[i], entries[j])
    {
      SortedFrom(entries, i, j, rules);
    }
  }

  lemma {:induction false} SortedFrom(entries: seq<string>, i: nat, j: nat, rules: Rules)
    requires PathsOk(entries, rules) && i < j < |entries|
    ensures Below(CharLess, entries[i], entries[j])
  {
    hide PathOk, Below, Encode;
    EncodingKeepsOrder(entries[j - 1], entries[j]);
    assert BytesBelow(entries[j - 1], entries[j]);
    if i < j - 1 {
      SortedFrom(entries, i, j - 1, rules);
      CharsAreOrdered();
      BelowTransitive(CharLess, entries[i], entries[j - 1], entries[j]);
    }
  }

  // ---------------------------------------------------- what the path means

  lemma {:induction false} SplitIsNotEmpty(text: string, current: string)
    ensures Split(text, current) != []
    decreases |text|
  {
    if text != "" {
      if text[0] == '/' { SplitIsNotEmpty(text[1..], ""); } else { SplitIsNotEmpty(text[1..], current + [text[0]]); }
    }
  }

  /** Without empty pieces and dots, the path library keeps every piece. */
  lemma {:induction false} PiecesAreComponents(text: string, current: string)
    requires forall piece :: piece in Split(text, current) ==> piece !in {"", "."}
    ensures Components(text, current) == Split(text, current)
    decreases |text|
  {
    if text == "" {
      assert current in [current];
    } else if text[0] == '/' {
      assert Split(text, current) == [current] + Split(text[1..], "");
      assert current in Split(text, current);
      assert forall piece :: piece in Split(text[1..], "") ==> piece in Split(text, current);
      PiecesAreComponents(text[1..], "");
    } else {
      assert Split(text, current) == Split(text[1..], current + [text[0]]);
      PiecesAreComponents(text[1..], current + [text[0]]);
    }
  }

  lemma {:induction false} SplitAppend(d: string, rest: string, current: string)
    ensures Split(d + "/" + rest, current) == Split(d, current) + Split(rest, "")
    decreases |d|
  {
    var text := d + "/" + rest;
    if d == "" {
      assert text[1..] == rest;
    } else {
      assert text[0] == d[0] && text[1..] == d[1..] + "/" + rest;
      if d[0] == '/' { SplitAppend(d[1..], rest, ""); } else { SplitAppend(d[1..], rest, current + [d[0]]); }
    }
  }

  lemma {:induction false} JoinSplit(text: string, current: string)
    ensures JoinParts(Split(text, current)) == current + text
    decreases |text|
  {
    if text == "" {
      assert current + "" == current;
    } else if text[0] == '/' {
      JoinSplit(text[1..], "");
      SplitIsNotEmpty(text[1..], "");
      JoinCons(current, Split(text[1..], ""));
      assert text == "/" + text[1..];
      assert current + "/" + ("" + text[1..]) == current + text;
    } else {
      JoinSplit(text[1..], current + [text[0]]);
      assert current + [text[0]] + text[1..] == current + text;
    }
  }

  lemma {:induction false} JoinCons(first: string, rest: seq<string>)
    requires rest != []
    ensures JoinParts([first] + rest) == first + "/" + JoinParts(rest)
    decreases |rest|
  {
    var parts := [first] + rest;
    assert parts[..|parts| - 1] == [first] + rest[..|rest| - 1];
    if |rest| > 1 {
      JoinCons(first, rest[..|rest| - 1]);
      var (x, y) := (JoinParts(rest[..|rest| - 1]), rest[|rest| - 1]);
      assert first + "/" + x + "/" + y == first + "/" + (x + "/" + y);
    } else {
      assert parts[..1] == [first];
    }
  }

  lemma {:induction false} JoinPrefix(parts: seq<string>, i: nat)
    requires 1 <= i < |parts|
    ensures JoinParts(parts[..i]) + "/" <= JoinParts(parts)
    decreases |parts|
  {
    var front := parts[..|parts| - 1];
    assert JoinParts(parts) == JoinParts(front) + "/" + parts[|parts| - 1];
    if i < |parts| - 1 {
      assert front[..i] == parts[..i];
      JoinPrefix(front, i);
    } else {
      assert front == parts[..i];
    }
  }

  lemma PathComponents(text: string, rules: Rules)
    requires PathOk(text, rules)
    ensures Parse(text) == PosixPath(false, Split(text, "")) && JoinParts(Split(text, "")) == text
  {
    hide AsPosix, JoinParts;
    PiecesAreComponents(text, "");
    JoinSplit(text, "");
    assert "" + text == text;
  }

  /** On a decoded path the walk ends, and what it adds is exactly the
      directories whose names, closed by a slash, begin the path. */
  lemma AncestorsArePrefixes(text: string, rules: Rules, d: string)
    requires PathOk(text, rules)
    ensures exists n: nat :: Up(Parse(text), n) == DOT
    ensures d in Ancestors(Parse(text)) <==> d + "/" <= text
  {
    PathComponents(text, rules);
    hide PathOk, Parse, Split, JoinParts;
    var parts := Split(text, "");
    WalkEndsExactly(Parse(text));
    hide Up;
    if d in Ancestors(Parse(text)) {
      var i :| 1 <= i < |parts| && d == AsPosix(PosixPath(false, parts[..i]));
      JoinPrefix(parts, i);
    }
    if d + "/" <= text {
      var rest := text[|d| + 1..];
      assert text == d + "/" + rest;
      SplitAppend(d, rest, "");
      SplitIsNotEmpty(d, "");
      SplitIsNotEmpty(rest, "");
      JoinSplit(d, "");
      var i := |Split(d, "")|;
      assert parts[..i] == Split(d, "") && "" + d == d;
      assert d == AsPosix(PosixPath(false, parts[..i]));
    }
  }

  /** Which paths are let through: the pieces between the slashes decide, none
      of them empty or a dot name, all portable; no backslash, no drive letter,
      short enough.  That the path begins with no slash and is spelled as the
      path library would spell it follows. */
  lemma PathExactly(text: string, rules: Rules)
    ensures PathOk(text, rules) <==>
      && (forall i :: 0 <= i < |text| ==> text[i] != '\\')
      && !(|text| >= 2 && ('A' <= text[0] <= 'Z' || 'a' <= text[0] <= 'z') && text[1] == ':')
      && (forall piece :: piece in Split(text, "") ==>
            piece != "" && piece != "." && piece != ".." && rules.portable(piece))
      && rules.fits(text)
  {
    SplitIsNotEmpty(text, "");
    JoinSplit(text, "");
    assert "" + text == text;
    hide Components, JoinParts;
    if forall piece :: piece in Split(text, "") ==> piece !in {"", ".", ".."} {
      PiecesAreComponents(text, "");
      StartsWithPiece(text);
    }
    assert forall i :: 0 <= i < |text| ==> text[i] in text;
  }

  lemma StartsWithPiece(text: string)
    requires forall piece :: piece in Split(text, "") ==> piece != ""
    ensures text != "" && text[0] != '/'
  {
    if text == "" || text[0] == '/' { assert "" in Split(text, ""); }
  }
}
