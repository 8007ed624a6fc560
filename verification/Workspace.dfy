/** The corpus workspace: a tree is accepted when it holds the listed files,
    two more, and no directory that is not needed for them. */
module Workspace {

  const MANIFEST_FILENAME: string := "manifest.json"
  const RECEIPT_FILENAME: string := ".install-receipt.json"

  // ------------------------------------------------------------------- paths

  /** A pure POSIX path: its root, and its components without `.` and empty
      ones. */
  datatype PosixPath = PosixPath(absolute: bool, parts: seq<string>)

  const DOT := PosixPath(false, [])

  /** A path without components is its own parent. */
  function Parent(p: PosixPath): PosixPath {
    if p.parts == [] then p else p.(parts := p.parts[..|p.parts| - 1])
  }

  function Up(p: PosixPath, n: nat): PosixPath {
    if n == 0 then p else Parent(Up(p, n - 1))
  }

  function Components(text: string, current: string): seq<string>
    decreases |text|
  {
    var done := if current == "" || current == "." then [] else [current];
    if text == "" then done
    else if text[0] == '/' then done + Components(text[1..], "")
    else Components(text[1..], current + [text[0]])
  }

  function Parse(text: string): PosixPath {
    PosixPath(text != "" && text[0] == '/', Components(text, ""))
  }

  function JoinParts(parts: seq<string>): string {
    if parts == [] then "" else if |parts| == 1 then parts[0] else JoinParts(parts[..|parts| - 1]) + "/" + parts[|parts| - 1]
  }

  function AsPosix(p: PosixPath): string {
    if p.absolute then "/" + JoinParts(p.parts) else if p.parts == [] then "." else JoinParts(p.parts)
  }

  // --------------------------------------------------------------- the loop

  lemma {:induction false} UpDrops(p: PosixPath, n: nat)
    ensures Up(p, n).absolute == p.absolute
    ensures Up(p, n).parts == if n <= |p.parts| then p.parts[..|p.parts| - n] else []
  {
    if n > 0 { UpDrops(p, n - 1); }
  }

  /** Walking up reaches `.` exactly from a relative path: from an absolute one
      the loop would go round at the root for ever. */
  lemma WalkEndsExactly(p: PosixPath)
    ensures (exists n: nat :: Up(p, n) == DOT) <==> !p.absolute
  {
    UpDrops(p, |p.parts|);
    if !p.absolute { assert Up(p, |p.parts|) == DOT; }
    forall n: nat ensures Up(p, n).absolute == p.absolute { UpDrops(p, n); }
  }

  /** The proper ancestors of a file, `.` not counted. */
  function Ancestors(p: PosixPath): set<string> {
    set i | 1 <= i < |p.parts| :: AsPosix(PosixPath(p.absolute, p.parts[..i]))
  }

  predicate Relative(paths: set<string>) { forall t :: t in paths ==> !Parse(t).absolute }

  function Expected(paths: set<string>): set<string> {
    {"."} + set t, d | t in paths && d in Ancestors(Parse(t)) :: d
  }

  /** The ancestors deeper than the first `k` components. */
  function Deeper(p: PosixPath, k: nat): set<string> {
    set i | k < i < |p.parts| :: AsPosix(PosixPath(p.absolute, p.parts[..i]))
  }

  lemma DeeperGrows(p: PosixPath, k: nat)
    requires 0 < k < |p.parts|
    ensures Deeper(p, k - 1) == Deeper(p, k) + {AsPosix(PosixPath(p.absolute, p.parts[..k]))}
  {
    forall d | d in Deeper(p, k - 1)
      ensures d in Deeper(p, k) + {AsPosix(PosixPath(p.absolute, p.parts[..k]))}
    {
      var i :| k - 1 < i < |p.parts| && d == AsPosix(PosixPath(p.absolute, p.parts[..i]));
    }
  }

  lemma DeeperEnds(p: PosixPath)
    ensures Deeper(p, 0) == Ancestors(p)
    ensures p.parts != [] ==> Deeper(p, |p.parts| - 1) == {}
  {
  }

  /** One file's walk: adds the ancestors not higher than the ones seen. */
  method AddAncestors(p: PosixPath, known: set<string>) returns (directories: set<string>)
    requires !p.absolute
    ensures directories == known + Ancestors(p)
  {
    directories := known;
    var parent := Parent(p);
    ghost var k: nat := |parent.parts|;
    DeeperEnds(p);
    hide Deeper, Ancestors, AsPosix;
    while parent != DOT
      invariant k <= |p.parts| && (k < |p.parts| || k == 0) && parent == PosixPath(false, p.parts[..k])
      invariant directories == known + Deeper(p, k)
      decreases |parent.parts|
    {
      DeeperGrows(p, k);
      directories := directories + {AsPosix(parent)};
      parent := Parent(parent);
      assert p.parts[..k][..k - 1] == p.parts[..k - 1];
      k := k - 1;
    }
  }

  /** The two nested loops compute `.` and every proper ancestor. */
  method ExpectedDirectories(paths: set<string>) returns (directories: set<string>)
    requires Relative(paths)
    ensures directories == Expected(paths)
  {
    directories := {"."};
    var pending := paths;
    while pending != {}
      invariant pending <= paths
      invariant directories == Expected(paths - pending)
    {
      var t :| t in pending;
      directories := AddAncestors(Parse(t), directories);
      assert paths - (pending - {t}) == (paths - pending) + {t};
      ExpectedGrows(paths - pending, t);
      pending := pending - {t};
    }
    assert paths - pending == paths;
  }

  lemma ExpectedGrows(paths: set<string>, t: string)
    ensures Expected(paths + {t}) == Expected(paths) + Ancestors(Parse(t))
  {
    forall d | d in Expected(paths + {t})
      ensures d in Expected(paths) + Ancestors(Parse(t))
    {
      if d != "." {
        var u :| u in paths + {t} && d in Ancestors(Parse(u));
      }
    }
  }

  method AcceptsTree(files: set<string>, directories: set<string>, listed: set<string>) returns (ok: bool)
    requires Relative(listed)
    ensures ok <==> Accepted(files, directories, listed)
  {
    var expectedFiles := {MANIFEST_FILENAME, RECEIPT_FILENAME} + listed;
    var expectedDirectories := ExpectedDirectories(listed);
    return files == expectedFiles && directories == expectedDirectories;
  }

  predicate Accepted(files: set<string>, directories: set<string>, listed: set<string>) {
    files == {MANIFEST_FILENAME, RECEIPT_FILENAME} + listed && directories == Expected(listed)
  }

  // ---------------------------------------------------------------- meaning

  /** A walk of a real tree lists the root and every directory on the way to
      each of its files. */
  predicate IsTree(files: set<string>, directories: set<string>) {
    "." in directories && forall t :: t in files ==> Ancestors(Parse(t)) <= directories
  }

  predicate Needed(d: string, listed: set<string>) {
    d == "." || exists t :: t in listed && d in Ancestors(Parse(t))
  }

  /** A real tree is accepted exactly when its files are the listed ones and
      the two of its own, and each directory leads to a listed file: no stray
      file, no missing file, no empty directory. */
  lemma AcceptedExactly(files: set<string>, directories: set<string>, listed: set<string>)
    requires IsTree(files, directories)
    ensures Accepted(files, directories, listed) <==>
      && files == {MANIFEST_FILENAME, RECEIPT_FILENAME} + listed
      && forall d :: d in directories ==> Needed(d, listed)
  {
    forall d | d in Expected(listed)
      ensures Needed(d, listed)
    {
    }
    if files == {MANIFEST_FILENAME, RECEIPT_FILENAME} + listed {
      forall d | Needed(d, listed)
        ensures d in directories && d in Expected(listed)
      {
        if d != "." {
          var t :| t in listed && d in Ancestors(Parse(t));
          assert t in files;
        }
      }
    }
  }

  /** The two files of its own, and the text of a path. */
  lemma PathsSpelled(a: string, b: string, c: string)
    ensures MANIFEST_FILENAME == "manifest.json" && RECEIPT_FILENAME == ".install-receipt.json"
    ensures AsPosix(DOT) == "." && AsPosix(PosixPath(true, [])) == "/"
    ensures AsPosix(PosixPath(false, [a])) == a && AsPosix(PosixPath(true, [a])) == "/" + a
    ensures AsPosix(PosixPath(false, [a, b])) == a + "/" + b && AsPosix(PosixPath(false, [a, b, c])) == a + "/" + b + "/" + c
  {
    assert [a, b][..1] == [a] && [a, b, c][..2] == [a, b];
    assert "/" + "" == "/";
  }
}
