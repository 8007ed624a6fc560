/** Which subtitle texts are promoted, what is taken out of them and what is
    said of the others: by the letters of each line. */
module PromotionRules {
  import opened Names
  import opened Subtitles
  import opened Promotion

  // ---------------------------------------------------------- kinds of line

  /** A speaker of `n` characters at the start: a letter, then up to 48 more
      letters, blanks and hyphens. */
  predicate SpeakerOf(s: string, n: nat) {
    && 1 <= n <= 49 && n < |s|
    && ('A' <= s[0] <= 'Z' || 'a' <= s[0] <= 'z')
    && forall i :: 0 <= i < n ==> 'A' <= s[i] <= 'Z' || 'a' <= s[i] <= 'z' || s[i] == ' ' || s[i] == '-'
  }

  predicate SpeechFrom(s: string, n: nat) { exists j :: n <= j < |s| && !IsSpace(s[j]) }

  /** `NAME: text` */
  predicate Labelled(s: string) { exists n :: 0 <= n < |s| && SpeakerOf(s, n) && s[n] == ':' && SpeechFrom(s, n + 1) }

  /** `NAME?: text` */
  predicate Questioned(s: string) {
    exists n :: 0 <= n < |s| - 1 && SpeakerOf(s, n) && s[n] == '?' && s[n + 1] == ':' && SpeechFrom(s, n + 2)
  }

  predicate Redacted(s: string) { s == "***" || s == "- ***." || s == "--" }

  /** A line that may stand in a reviewed candidate. */
  predicate Allowed(line: string) {
    var s := Strip(line);
    s == "" || Labelled(s) || Questioned(s) || Redacted(s)
  }

  lemma SpeakerEndIs(s: string, n: nat)
    requires n < |s| && (s[n] == ':' || s[n] == '?')
    ensures SpeakerEnd(s) == Some(n) <==> SpeakerOf(s, n)
  {
    var run := LabelRun(s);
    if SpeakerOf(s, n) {
      assert forall i :: 0 <= i < n ==> IsLabelChar(s[i]);
      assert !IsLabelChar(s[n]);
    }
  }

  /** Blanks up to `k`, and text there. */
  predicate TextAt(t: string, n: nat, k: nat) {
    n <= k < |t| && !IsSpace(t[k]) && forall i :: n <= i < k ==> IsSpace(t[i])
  }

  lemma {:induction false} SpokenIs(t: string)
    ensures Spoken(t).Some? <==> SpeechFrom(t, 0)
  {
    hide IsSpace;
    if t != "" && IsSpace(t[0]) {
      SpokenIs(t[1..]);
      assert Spoken(t) == Spoken(t[1..]);
      SpeechOfTail(t);
    } else if t != "" {
      assert !IsSpace(t[0]);
    }
  }

  lemma SpeechOfTail(t: string)
    requires t != "" && IsSpace(t[0])
    ensures SpeechFrom(t, 0) <==> SpeechFrom(t[1..], 0)
  {
    hide IsSpace;
    if SpeechFrom(t[1..], 0) {
      var j :| 0 <= j < |t[1..]| && !IsSpace(t[1..][j]);
      assert t[j + 1] == t[1..][j];
    }
    if SpeechFrom(t, 0) {
      var j :| 0 <= j < |t| && !IsSpace(t[j]);
      assert t[1..][j - 1] == t[j];
    }
  }

  lemma {:induction false} SpokenAt(t: string) returns (k: nat)
    requires Spoken(t).Some?
    ensures TextAt(t, 0, k) && Spoken(t) == Some(t[k..])
  {
    hide IsSpace;
    if IsSpace(t[0]) {
      assert Spoken(t) == Spoken(t[1..]);
      k := SpokenAt(t[1..]);
      ShiftText(t, k);
      k := k + 1;
    } else {
      assert t[0..] == t;
      k := 0;
    }
  }

  lemma ShiftText(t: string, k: nat)
    requires t != "" && IsSpace(t[0]) && TextAt(t[1..], 0, k)
    ensures TextAt(t, 0, k + 1) && t[k + 1..] == t[1..][k..]
  {
    hide IsSpace;
    assert forall i :: 0 < i < |t| ==> t[i] == t[1..][i - 1];
  }

  lemma SpeechOfRest(s: string, n: nat)
    requires n <= |s|
    ensures SpeechFrom(s[n..], 0) <==> SpeechFrom(s, n)
  {
    hide IsSpace;
    if SpeechFrom(s, n) {
      var j :| n <= j < |s| && !IsSpace(s[j]);
      assert s[n..][j - n] == s[j];
    }
    if SpeechFrom(s[n..], 0) {
      var j :| 0 <= j < |s[n..]| && !IsSpace(s[n..][j]);
      assert s[n + j] == s[n..][j];
    }
  }

  /** The two label patterns, character by character. */
  lemma LabelsExactly(s: string)
    ensures Verified(s) <==> Labelled(s)
    ensures Uncertain(s).Some? <==> Questioned(s)
  {
    hide SpeakerEnd, SpeakerOf, Spoken, SpeechFrom;
    forall n | 0 <= n < |s| && (s[n] == ':' || s[n] == '?')
      ensures SpeakerEnd(s) == Some(n) <==> SpeakerOf(s, n)
    {
      SpeakerEndIs(s, n);
    }
    forall n: nat | n <= |s|
      ensures Spoken(s[n..]).Some? <==> SpeechFrom(s, n)
    {
      SpokenIs(s[n..]);
      SpeechOfRest(s, n);
    }
    if Uncertain(s).Some? { assert SpeakerOf(s, SpeakerEnd(s).value); }
    if Verified(s) { assert SpeakerOf(s, SpeakerEnd(s).value); }
  }

  lemma RedactionsExactly(s: string)
    ensures IsRedaction(s) <==> Redacted(s)
  {
  }

  predicate Rewrites(s: string, t: string, n: nat, k: nat) {
    && TextAt(s, n + 2, k) && SpeakerOf(s, n) && s[n] == '?' && s[n + 1] == ':'
    && t == s[..n] + ": " + s[k..]
  }

  /** A questioned label loses its question mark and the blanks behind its
      colon, and nothing else. */
  lemma RewritingExactly(s: string, t: string)
    requires Uncertain(s) == Some(t)
    ensures exists n: nat, k: nat :: Rewrites(s, t, n, k)
  {
    hide IsSpace, LabelRun, Spoken, SpeakerOf, TextAt;
    var n := SpeakerEnd(s).value;
    SpeakerEndIs(s, n);
    var k := SpokenAt(s[n + 2..]);
    TextOfRest(s, n + 2, k);
    assert Rewrites(s, t, n, n + 2 + k);
  }

  lemma TextOfRest(s: string, n: nat, k: nat)
    requires n <= |s| && TextAt(s[n..], 0, k)
    ensures TextAt(s, n, n + k) && s[n + k..] == s[n..][k..]
  {
    hide IsSpace;
    assert forall i :: n <= i < |s| ==> s[i] == s[n..][i - n];
  }

  // ------------------------------------------------------------------- cues

  function RedactedCount(lines: seq<string>): nat {
    if lines == [] then 0
    else RedactedCount(lines[..|lines| - 1]) + if Redacted(Strip(lines[|lines| - 1])) then 1 else 0
  }

  function QuestionedCount(lines: seq<string>): nat {
    if lines == [] then 0
    else QuestionedCount(lines[..|lines| - 1]) + if Questioned(Strip(lines[|lines| - 1])) then 1 else 0
  }

  /** Labelled lines as they are, questioned ones rewritten, in order. */
  function Emitted(lines: seq<string>): seq<string> {
    if lines == [] then [] else
    var (front, s) := (Emitted(lines[..|lines| - 1]), Strip(lines[|lines| - 1]));
    if Uncertain(s).Some? then front + [Uncertain(s).value] else if Labelled(s) then front + [s] else front
  }

  predicate AllAllowed(lines: seq<string>) { forall i :: 0 <= i < |lines| ==> Allowed(lines[i]) }

  lemma KindsAreApart(s: string)
    ensures Redacted(s) ==> s != "" && !Labelled(s) && !Questioned(s)
    ensures s == "" ==> !Redacted(s) && !Labelled(s) && !Questioned(s)
    ensures !(Labelled(s) && Questioned(s))
  {
    hide SpeechFrom;
    if Redacted(s) {
      assert s[0] == '*' || s[0] == '-';
      forall n: nat ensures !SpeakerOf(s, n) {}
    }
    if Labelled(s) && Questioned(s) {
      var n :| 0 <= n < |s| && SpeakerOf(s, n) && s[n] == ':';
      var k :| 0 <= k < |s| - 1 && SpeakerOf(s, k) && s[k] == '?';
    }
  }

  /** One cue: it is read through exactly when every line is allowed, and then
      this is what is emitted, rewritten and taken out. */
  lemma {:induction false} CueExactly(lines: seq<string>, cue: int)
    ensures AddLines(lines, cue).Done? <==> AllAllowed(lines)
    ensures AllAllowed(lines) ==>
      AddLines(lines, cue) == Done(Dialogue(Emitted(lines), QuestionedCount(lines), RedactedCount(lines)))
  {
    hide Strip, Uncertain, Verified, Labelled, Questioned, Redacted, IsRedaction;
    if lines != [] {
      var (front, s) := (lines[..|lines| - 1], Strip(lines[|lines| - 1]));
      CueExactly(front, cue);
      LabelsExactly(s);
      RedactionsExactly(s);
      KindsAreApart(s);
      assert AllAllowed(lines) <==> AllAllowed(front) && Allowed(lines[|lines| - 1]) by {
        assert forall i :: 0 <= i < |front| ==> front[i] == lines[i];
      }
    }
  }

  /** The line an error names is the first that is not allowed. */
  predicate FirstBad(lines: seq<string>, j: nat) {
    j < |lines| && !Allowed(lines[j]) && AllAllowed(lines[..j])
  }

  lemma {:induction false} BadCue(lines: seq<string>, cue: int, j: nat)
    requires FirstBad(lines, j)
    ensures AddLines(lines, cue) == Failed(UnreviewedLine(cue, Strip(lines[j])))
  {
    hide Strip, Uncertain, Verified, Labelled, Questioned, Redacted, IsRedaction, AddLines;
    var upto := lines[..j + 1];
    assert upto[..|upto| - 1] == lines[..j];
    CueExactly(lines[..j], cue);
    LabelsExactly(Strip(lines[j]));
    RedactionsExactly(Strip(lines[j]));
    OneBadLine(upto, cue);
    LineFailureStands(lines, j + 1, cue);
  }

  lemma OneBadLine(lines: seq<string>, cue: int)
    requires lines != [] && AddLines(lines[..|lines| - 1], cue).Done?
    requires var s := Strip(lines[|lines| - 1]); s != "" && !Verified(s) && Uncertain(s).None? && !IsRedaction(s)
    ensures AddLines(lines, cue) == Failed(UnreviewedLine(cue, Strip(lines[|lines| - 1])))
  {
    hide Strip, Uncertain, Verified, IsRedaction;
  }

  lemma FindBad(lines: seq<string>) returns (j: nat)
    requires !AllAllowed(lines)
    ensures FirstBad(lines, j)
  {
    hide Allowed;
    var front := lines[..|lines| - 1];
    if AllAllowed(front) {
      assert forall i :: 0 <= i < |front| ==> lines[i] == front[i];
      j := |lines| - 1;
    } else {
      j := FindBad(front);
      assert front[..j] == lines[..j] && front[j] == lines[j];
    }
  }

  // ------------------------------------------------------------ whole texts

  predicate Blank(block: string) { Strip(block) == "" }

  /** What a cue needs to be read through. */
  predicate Readable(block: string, parse: NumberParser) {
    && |Lines(block)| >= 2 && parse(Strip(Lines(block)[0])).Some? && AllAllowed(Lines(block)[2..])
  }

  predicate AllReadable(blocks: seq<string>, parse: NumberParser) {
    forall i :: 0 <= i < |blocks| ==> Blank(blocks[i]) || Readable(blocks[i], parse)
  }

  lemma CueIsReadable(block: string, parse: NumberParser)
    ensures ReadCue(block, parse).Done? <==> Readable(block, parse)
    ensures Readable(block, parse) ==>
      var lines := Lines(block);
      ReadCue(block, parse) == Done(Cue(Strip(lines[0]), Strip(lines[1]), parse(Strip(lines[0])).value,
        Dialogue(Emitted(lines[2..]), QuestionedCount(lines[2..]), RedactedCount(lines[2..]))))
  {
    hide Lines, Strip, AddLines, AllAllowed, Emitted, QuestionedCount, RedactedCount;
    var lines := Lines(block);
    if |lines| >= 2 && parse(Strip(lines[0])).Some? {
      CueExactly(lines[2..], parse(Strip(lines[0])).value);
    }
  }

  /** The dialogue lines of all cues, one after the other. */
  function DialogueLines(blocks: seq<string>): seq<string> {
    if blocks == [] then [] else
    var last := blocks[|blocks| - 1];
    DialogueLines(blocks[..|blocks| - 1]) + if Blank(last) || |Lines(last)| < 2 then [] else Lines(last)[2..]
  }

  lemma {:induction false} CountsAdd(a: seq<string>, b: seq<string>)
    ensures RedactedCount(a + b) == RedactedCount(a) + RedactedCount(b)
    ensures QuestionedCount(a + b) == QuestionedCount(a) + QuestionedCount(b)
    decreases |b|
  {
    hide Strip, Redacted, Questioned;
    if b == [] {
      assert a + b == a;
    } else {
      assert (a + b)[..|a + b| - 1] == a + b[..|b| - 1];
      CountsAdd(a, b[..|b| - 1]);
    }
  }

  /** A text is promoted exactly when each of its cues has a number line, a time
      line and allowed dialogue only; the lines taken out are then the
      redactions, each "***", "- ***." or "--", and the lines rewritten the
      questioned labels. */
  lemma {:induction false} BlocksExactly(blocks: seq<string>, parse: NumberParser)
    ensures AddBlocks(blocks, parse).Done? <==> AllReadable(blocks, parse)
    ensures AllReadable(blocks, parse) ==>
      && AddBlocks(blocks, parse).value.removedLines == RedactedCount(DialogueLines(blocks))
      && AddBlocks(blocks, parse).value.promoted == QuestionedCount(DialogueLines(blocks))
  {
    hide ReadCue, Strip, Lines, Readable, RedactedCount, QuestionedCount, Emitted;
    if blocks == [] {
      NothingCounted();
    } else {
      var (front, last) := (blocks[..|blocks| - 1], blocks[|blocks| - 1]);
      BlocksExactly(front, parse);
      AllReadableFront(blocks, parse);
      if Blank(last) {
        assert DialogueLines(front) + [] == DialogueLines(front);
      } else if Readable(last, parse) {
        CueIsReadable(last, parse);
        HasTwoLines(last, parse);
        CountsAdd(DialogueLines(front), Lines(last)[2..]);
      } else {
        CueIsReadable(last, parse);
      }
    }
  }

  lemma NothingCounted()
    ensures RedactedCount([]) == 0 && QuestionedCount([]) == 0
  {
  }

  lemma HasTwoLines(block: string, parse: NumberParser)
    requires Readable(block, parse)
    ensures |Lines(block)| >= 2
  {
  }

  lemma AllReadableFront(blocks: seq<string>, parse: NumberParser)
    requires blocks != []
    ensures AllReadable(blocks, parse) <==>
      AllReadable(blocks[..|blocks| - 1], parse) && (Blank(blocks[|blocks| - 1]) || Readable(blocks[|blocks| - 1], parse))
  {
    hide Blank, Readable;
    var front := blocks[..|blocks| - 1];
    assert forall i :: 0 <= i < |front| ==> front[i] == blocks[i];
    if AllReadable(front, parse) && (Blank(blocks[|blocks| - 1]) || Readable(blocks[|blocks| - 1], parse)) {
      forall i | 0 <= i < |blocks|
        ensures Blank(blocks[i]) || Readable(blocks[i], parse)
      {
        if i < |front| { assert blocks[i] == front[i]; }
      }
    }
  }

  /** The same for the text, and what a refusal says: it is about the first cue
      that cannot be read through and names what is first wrong with it. */
  lemma PromotedExactly(text: string, parse: NumberParser)
    ensures Promote(text, parse).Done? <==> AllReadable(Blocks(text), parse)
    ensures Promote(text, parse).Done? ==>
      && Promote(text, parse).value.removedLines == RedactedCount(DialogueLines(Blocks(text)))
      && Promote(text, parse).value.promoted == QuestionedCount(DialogueLines(Blocks(text)))
  {
    hide Blocks, AddBlocks, AllReadable, DialogueLines, RedactedCount, QuestionedCount;
    BlocksExactly(Blocks(text), parse);
  }

  /** Block `i` is the first that is neither blank nor readable. */
  predicate FirstUnreadable(blocks: seq<string>, parse: NumberParser, i: nat) {
    i < |blocks| && !Blank(blocks[i]) && !Readable(blocks[i], parse) && AllReadable(blocks[..i], parse)
  }

  lemma RefusalExactly(text: string, parse: NumberParser, i: nat)
    requires FirstUnreadable(Blocks(text), parse, i)
    ensures var lines := Lines(Blocks(text)[i]);
      if |lines| < 2 then Promote(text, parse) == Failed(MalformedCue)
      else match parse(Strip(lines[0]))
           case None => Promote(text, parse) == Failed(BadCueNumber)
           case Some(cue) => exists j :: 2 <= j < |lines| && FirstBad(lines[2..], j - 2)
                                         && Promote(text, parse) == Failed(UnreviewedLine(cue, Strip(lines[j])))
  {
    hide Blocks, AddBlocks, AllReadable, Lines, Strip, AllAllowed, AddLines, FirstBad;
    var blocks := Blocks(text);
    var lines := Lines(blocks[i]);
    BlocksExactly(blocks[..i], parse);
    var upto := blocks[..i + 1];
    assert upto[..|upto| - 1] == blocks[..i];
    OneBadBlock(upto, parse);
    if |lines| >= 2 && parse(Strip(lines[0])).Some? {
      var k := FindBad(lines[2..]);
      BadIsInside(lines[2..], k);
      BadCue(lines[2..], parse(Strip(lines[0])).value, k);
      assert lines[2..][k] == lines[k + 2] && FirstBad(lines[2..], (k + 2) - 2);
    }
    FailureStands(blocks, i + 1, parse);
  }

  lemma BadIsInside(lines: seq<string>, k: nat)
    requires FirstBad(lines, k)
    ensures k < |lines|
  {
  }

  lemma OneBadBlock(blocks: seq<string>, parse: NumberParser)
    requires blocks != [] && AddBlocks(blocks[..|blocks| - 1], parse).Done?
    requires !Blank(blocks[|blocks| - 1]) && !Readable(blocks[|blocks| - 1], parse)
    ensures ReadCue(blocks[|blocks| - 1], parse).Failed?
    ensures AddBlocks(blocks, parse) == Failed(ReadCue(blocks[|blocks| - 1], parse).failure)
  {
    hide ReadCue, Strip, Readable;
    CueIsReadable(blocks[|blocks| - 1], parse);
  }

  lemma UnreadableIsFound(blocks: seq<string>, parse: NumberParser) returns (i: nat)
    requires !AllReadable(blocks, parse)
    ensures FirstUnreadable(blocks, parse, i)
  {
    hide Blank, Readable;
    var front := blocks[..|blocks| - 1];
    if AllReadable(front, parse) {
      assert forall k :: 0 <= k < |front| ==> blocks[k] == front[k];
      i := |blocks| - 1;
    } else {
      i := UnreadableIsFound(front, parse);
      assert front[..i] == blocks[..i] && front[i] == blocks[i];
    }
  }

  // --------------------------------------------------------------- the output

  /** The cues with something left to say, in order. */
  function KeptCues(blocks: seq<string>, parse: NumberParser): seq<Cue> {
    if blocks == [] then [] else
    var (front, last) := (KeptCues(blocks[..|blocks| - 1], parse), blocks[|blocks| - 1]);
    if Blank(last) || !Readable(last, parse) || Emitted(Lines(last)[2..]) == [] then front
    else
      var lines := Lines(last);
      front + [Cue(Strip(lines[0]), Strip(lines[1]), parse(Strip(lines[0])).value,
                   Dialogue(Emitted(lines[2..]), QuestionedCount(lines[2..]), RedactedCount(lines[2..])))]
  }

  /** The numbers of the others. */
  function EmptiedCues(blocks: seq<string>, parse: NumberParser): seq<int> {
    if blocks == [] then [] else
    var (front, last) := (EmptiedCues(blocks[..|blocks| - 1], parse), blocks[|blocks| - 1]);
    if Blank(last) || !Readable(last, parse) || Emitted(Lines(last)[2..]) != [] then front
    else front + [parse(Strip(Lines(last)[0])).value]
  }

  /** A promoted text keeps exactly the cues with a line left, each with its
      number line, its time line and those lines, and reports the numbers of
      the rest. */
  lemma {:induction false} OutcomeExactly(blocks: seq<string>, parse: NumberParser)
    requires AllReadable(blocks, parse)
    ensures AddBlocks(blocks, parse) ==
      Done(Outcome(KeptCues(blocks, parse), QuestionedCount(DialogueLines(blocks)), RedactedCount(DialogueLines(blocks)),
                   EmptiedCues(blocks, parse)))
  {
    hide ReadCue, Strip, Lines, Readable, RedactedCount, QuestionedCount, Emitted;
    BlocksExactly(blocks, parse);
    if blocks != [] {
      var (front, last) := (blocks[..|blocks| - 1], blocks[|blocks| - 1]);
      AllReadableFront(blocks, parse);
      OutcomeExactly(front, parse);
      if !Blank(last) {
        CueIsReadable(last, parse);
        HasTwoLines(last, parse);
      }
    }
  }

  function Under(lines: seq<string>): string { if lines == [] then "" else "\n" + lines[0] + Under(lines[1..]) }

  /** A cue is printed line under line, cues with one blank line between, the
      text with a line feed at its end. */
  lemma PrintedExactly(c: Cue, rest: seq<Cue>)
    ensures PrintCue(c) == c.head + "\n" + c.time + Under(c.dialogue.lines)
    ensures Render([c]) == PrintCue(c) + "\n"
    ensures rest != [] ==> Render([c] + rest) == PrintCue(c) + "\n\n" + Render(rest)
    ensures Render([]) == "\n"
  {
    JoinedUnder(c.head, [c.time] + c.dialogue.lines);
    JoinedUnder(c.time, c.dialogue.lines);
    assert [c.head] + ([c.time] + c.dialogue.lines) == [c.head, c.time] + c.dialogue.lines;
    hide PrintCue;
    assert PrintCues([c]) == [PrintCue(c)] && PrintCues([]) == [];
    if rest != [] {
      assert PrintCues([c] + rest) == [PrintCue(c)] + PrintCues(rest);
      assert ([PrintCue(c)] + PrintCues(rest))[1..] == PrintCues(rest);
    }
  }

  lemma {:induction false} JoinedUnder(first: string, lines: seq<string>)
    ensures JoinLines([first] + lines) == first + Under(lines)
    decreases |lines|
  {
    if lines != [] {
      assert ([first] + lines)[1..] == lines && lines == [lines[0]] + lines[1..];
      JoinedUnder(lines[0], lines[1..]);
    }
  }
}
