/** Text as Python cuts it: blanks, lines, and the blank-line separator of
    subtitle cues. */
module Subtitles {

  /** `str.isspace` and the class `\s`. */
  predicate IsSpace(c: char) {
    var n := c as int;
    || 0x09 <= n <= 0x0D || 0x1C <= n <= 0x20 || n == 0x85 || n == 0xA0 || n == 0x1680
    || 0x2000 <= n <= 0x200A || n == 0x2028 || n == 0x2029 || n == 0x202F || n == 0x205F || n == 0x3000
  }

  /** Where `str.splitlines` cuts. */
  predicate IsBreak(c: char) {
    var n := c as int;
    0x0A <= n <= 0x0D || 0x1C <= n <= 0x1E || n == 0x85 || n == 0x2028 || n == 0x2029
  }

  function StripLeft(s: string): (r: string)
    ensures |r| <= |s| && s[|s| - |r|..] == r && (r != "" ==> !IsSpace(r[0]))
  {
    if s != "" && IsSpace(s[0]) then StripLeft(s[1..]) else s
  }

  function StripRight(s: string): (r: string)
    ensures |r| <= |s| && s[..|r|] == r && (r != "" ==> !IsSpace(r[|r| - 1]))
  {
    if s != "" && IsSpace(s[|s| - 1]) then StripRight(s[..|s| - 1]) else s
  }

  function Strip(s: string): string { StripRight(StripLeft(s)) }

  /** Neither empty nor padded. */
  predicate Trimmed(s: string) { s != "" && !IsSpace(s[0]) && !IsSpace(s[|s| - 1]) }

  lemma StripTrims(s: string)
    ensures Strip(s) == "" || Trimmed(Strip(s))
    ensures forall c :: c in Strip(s) ==> c in s
  {
    var l := StripLeft(s);
    assert forall c :: c in l ==> c in s;
    assert forall c :: c in StripRight(l) ==> c in l;
    if Strip(s) != "" { assert Strip(s)[0] == l[0]; }
  }

  lemma StripTrimmed(s: string)
    requires Trimmed(s)
    ensures Strip(s) == s
  {
  }

  predicate OneLine(s: string) { forall c :: c in s ==> !IsBreak(c) }

  // ------------------------------------------------------------------- lines

  function LinesFrom(s: string, line: string): seq<string>
    decreases |s|
  {
    if s == "" then (if line == "" then [] else [line])
    else if s[0] == '\r' && |s| >= 2 && s[1] == '\n' then [line] + LinesFrom(s[2..], "")
    else if IsBreak(s[0]) then [line] + LinesFrom(s[1..], "")
    else LinesFrom(s[1..], line + [s[0]])
  }

  function Lines(s: string): seq<string> { LinesFrom(s, "") }

  lemma {:induction false} LinesAreOneLine(s: string, line: string)
    requires OneLine(line)
    ensures forall l :: l in LinesFrom(s, line) ==> OneLine(l)
    decreases |s|
  {
    if s != "" {
      if s[0] == '\r' && |s| >= 2 && s[1] == '\n' { LinesAreOneLine(s[2..], ""); }
      else if IsBreak(s[0]) { LinesAreOneLine(s[1..], ""); }
      else { LinesAreOneLine(s[1..], line + [s[0]]); }
    }
  }

  function JoinLines(lines: seq<string>): string {
    if lines == [] then "" else if |lines| == 1 then lines[0] else lines[0] + "\n" + JoinLines(lines[1..])
  }

  lemma {:induction false} ReadLine(l: string, rest: string, line: string)
    requires OneLine(l)
    ensures LinesFrom(l + rest, line) == LinesFrom(rest, line + l)
    decreases |l|
  {
    if l == "" {
      assert l + rest == rest && line + l == line;
    } else {
      assert (l + rest)[1..] == l[1..] + rest;
      assert l[0] in l;
      ReadLine(l[1..], rest, line + [l[0]]);
      assert line + [l[0]] + l[1..] == line + l;
    }
  }

  /** Joined lines are cut into the same lines again. */
  lemma {:induction false} LinesOfJoined(lines: seq<string>)
    requires forall l :: l in lines ==> l != "" && OneLine(l)
    ensures Lines(JoinLines(lines)) == lines
  {
    if lines != [] {
      if |lines| == 1 {
        assert lines[0] + "" == lines[0];
        ReadLine(lines[0], "", "");
        assert "" + lines[0] == lines[0];
      } else {
        var rest := "\n" + JoinLines(lines[1..]);
        assert JoinLines(lines) == lines[0] + rest;
        ReadLine(lines[0], rest, "");
        assert "" + lines[0] == lines[0] && rest[1..] == JoinLines(lines[1..]);
        assert forall l :: l in lines[1..] ==> l in lines;
        LinesOfJoined(lines[1..]);
      }
    }
  }

  // --------------------------------------------------------------- separator

  function SpaceRun(s: string): (n: nat)
    ensures n <= |s|
  {
    if s != "" && IsSpace(s[0]) then 1 + SpaceRun(s[1..]) else 0
  }

  /** One past the last newline in the first `n` characters, or zero. */
  function LastNewline(s: string, n: nat): (end: nat)
    requires n <= |s|
    ensures end <= n
  {
    if n == 0 then 0 else if s[n - 1] == '\n' then n else LastNewline(s, n - 1)
  }

  /** The length of the match of `\r?\n\s*\r?\n` at the start of `s`, or zero:
      a newline and, in the blanks after it, the last newline. */
  function Separator(s: string): (n: nat)
    ensures n <= |s|
  {
    var head := if |s| >= 2 && s[0] == '\r' && s[1] == '\n' then 2 else if s != "" && s[0] == '\n' then 1 else 0;
    if head == 0 then 0 else
    var end := LastNewline(s[head..], SpaceRun(s[head..]));
    if end == 0 then 0 else head + end
  }

  function BlocksFrom(s: string, block: string): seq<string>
    decreases |s|
  {
    if s == "" then [block]
    else if Separator(s) > 0 then [block] + BlocksFrom(s[Separator(s)..], "")
    else BlocksFrom(s[1..], block + [s[0]])
  }

  /** The cues of a text, blanks around the text removed. */
  function Blocks(text: string): seq<string> { BlocksFrom(Strip(text), "") }

  function JoinBlocks(blocks: seq<string>): string {
    if blocks == [] then "" else if |blocks| == 1 then blocks[0] else blocks[0] + "\n\n" + JoinBlocks(blocks[1..])
  }

  /** A block no separator starts in: trimmed, and every newline is followed at
      once by text. */
  predicate Tight(b: string) {
    && Trimmed(b)
    && forall i :: 0 <= i < |b| ==> b[i] != '\r' && (b[i] == '\n' ==> i + 1 < |b| && !IsSpace(b[i + 1]))
  }

  lemma {:induction false} ReadBlock(b: string, i: nat, rest: string, block: string)
    requires Tight(b) && i <= |b|
    ensures BlocksFrom(b[i..] + rest, block) == BlocksFrom(rest, block + b[i..])
    decreases |b| - i
  {
    var s := b[i..] + rest;
    if i == |b| {
      assert s == rest && block + b[i..] == block;
    } else {
      assert s[0] == b[i] && s[1..] == b[i + 1..] + rest;
      if b[i] == '\n' {
        assert s[1..][0] == b[i + 1];
        assert SpaceRun(s[1..]) == 0;
      }
      ReadBlock(b, i + 1, rest, block + [b[i]]);
      assert block + [b[i]] + b[i + 1..] == block + b[i..];
    }
  }

  lemma BlankLineSeparates(next: string)
    requires next != "" && !IsSpace(next[0])
    ensures Separator("\n\n" + next) == 2
  {
    var s := "\n\n" + next;
    assert s[1..] == "\n" + next;
    assert s[1..][1..] == next;
    assert SpaceRun(next) == 0;
    assert SpaceRun(s[1..]) == 1;
  }

  lemma ReadSeparatedBlock(b: string, next: string)
    requires Tight(b) && next != "" && !IsSpace(next[0])
    ensures BlocksFrom(b + "\n\n" + next, "") == [b] + BlocksFrom(next, "")
  {
    var rest := "\n\n" + next;
    assert b + "\n\n" + next == b[0..] + rest && "" + b[0..] == b;
    ReadBlock(b, 0, rest, "");
    BlankLineSeparates(next);
    assert rest[2..] == next;
  }

  lemma ReadLastBlock(b: string)
    requires Tight(b)
    ensures BlocksFrom(b, "") == [b]
  {
    assert b[0..] + "" == b && "" + b[0..] == b;
    ReadBlock(b, 0, "", "");
  }

  /** Tight blocks joined by blank lines are cut into the same blocks again. */
  lemma {:induction false} BlocksOfJoined(blocks: seq<string>)
    requires blocks != [] && forall b :: b in blocks ==> Tight(b)
    ensures BlocksFrom(JoinBlocks(blocks), "") == blocks
    ensures Trimmed(JoinBlocks(blocks)) && JoinBlocks(blocks)[0] == blocks[0][0]
  {
    hide BlocksFrom;
    if |blocks| == 1 {
      ReadLastBlock(blocks[0]);
    } else {
      assert forall b :: b in blocks[1..] ==> b in blocks;
      BlocksOfJoined(blocks[1..]);
      ReadSeparatedBlock(blocks[0], JoinBlocks(blocks[1..]));
      assert blocks == [blocks[0]] + blocks[1..];
    }
  }

  /** A block of trimmed single lines is tight. */
  lemma {:induction false} JoinedLinesAreTight(lines: seq<string>)
    requires lines != [] && forall l :: l in lines ==> Trimmed(l) && OneLine(l)
    ensures Tight(JoinLines(lines)) && JoinLines(lines)[0] == lines[0][0]
  {
    var l := lines[0];
    assert forall i :: 0 <= i < |l| ==> l[i] in l;
    if |lines| > 1 {
      var rest := JoinLines(lines[1..]);
      JoinedLinesAreTight(lines[1..]);
      TightCons(l, rest);
    }
  }

  lemma TightCons(l: string, rest: string)
    requires Trimmed(l) && OneLine(l) && Tight(rest)
    ensures Tight(l + "\n" + rest)
  {
    var b := l + "\n" + rest;
    forall i | 0 <= i < |b|
      ensures b[i] != '\r' && (b[i] == '\n' ==> i + 1 < |b| && !IsSpace(b[i + 1]))
    {
      if i < |l| {
        assert b[i] == l[i] && l[i] in l;
      } else if i > |l| {
        var j := i - |l| - 1;
        assert b[i] == rest[j];
        if rest[j] == '\n' { assert b[i + 1] == rest[j + 1]; }
      } else {
        assert b[i + 1] == rest[0];
      }
    }
  }
}
